/**
 The content-addressed archive. `h` stands for the digest: any function at all where only addresses
 matter, an injective one where contents are compared.
 */
module Archive {
  import opened Prelude

  type Bytes = seq<int>
  type Hash = nat
  type Extension = string
  type TenantId = nat
  type InvoiceId = nat
  type EntryId = nat
  type TaskId = nat
  type Digest = Bytes -> Hash

  datatype StorageKey = StorageKey(hash: Hash, extension: Extension)

  /** A row of the archive; `sealedFrom` is a history variable: the bytes the seal was asked for. */
  datatype Entry = Entry(tenant: TenantId, invoice: Option<InvoiceId>, contentHash: Hash, storageKey: StorageKey,
                         kind: string, sizeBytes: nat, sealedFrom: Bytes)

  /** What makes two rows the same: tenant, invoice and content. */
  datatype Identity = Identity(tenant: TenantId, invoice: Option<InvoiceId>, contentHash: Hash)

  function IdentityOf(entry: Entry): Identity {
    Identity(entry.tenant, entry.invoice, entry.contentHash)
  }

  datatype Request = Request(tenant: TenantId, invoice: Option<InvoiceId>, bytes: Bytes, kind: string, extension: Extension)

  function KeyFor(h: Digest, r: Request): StorageKey {
    StorageKey(h(r.bytes), r.extension)
  }

  function EntryFor(h: Digest, r: Request): Entry {
    Entry(r.tenant, r.invoice, h(r.bytes), KeyFor(h, r), r.kind, |r.bytes|, r.bytes)
  }

  /** A seal between its steps: its bytes are in the store, or still in a temporary file. */
  datatype Seal = Seal(request: Request, stored: bool)

  datatype World = World(
    blobs: map<StorageKey, Bytes>,
    entries: map<EntryId, Entry>,
    seals: map<TaskId, Seal>,
    transactions: map<TaskId, seq<Entry>>) // rows written and not yet committed

  const EMPTY := World(map[], map[], map[], map[])

  ghost predicate Taken(entries: map<EntryId, Entry>, identity: Identity) {
    exists id :: id in entries && IdentityOf(entries[id]) == identity
  }

  // ---------------------------------------------------------------------- steps and runs

  datatype Step =
    | StartPut(task: TaskId, request: Request)
    | Rename(task: TaskId)
    | WriteRow(task: TaskId, transaction: TaskId)
    | Commit(transaction: TaskId, ids: seq<EntryId>)
    | Rollback(transaction: TaskId)
    | Crash(task: TaskId)
    | Corrupt(key: StorageKey, bytes: Bytes)
    | Lose(key: StorageKey)

  /** The rows of a transaction that the table does not have yet, under the identifiers drawn for them. */
  ghost function Committed(entries: map<EntryId, Entry>, rows: seq<Entry>, ids: seq<EntryId>): Option<map<EntryId, Entry>>
    decreases |rows|
  {
    if rows == [] then Some(entries)
    else if ids == [] then None
    else if Taken(entries, IdentityOf(rows[0])) then Committed(entries, rows[1..], ids[1..])
    else if ids[0] in entries then None
    else Committed(entries[ids[0] := rows[0]], rows[1..], ids[1..])
  }

  ghost function Try(h: Digest, w: World, step: Step): Option<World> {
    match step
    case StartPut(t, r) =>
      if t in w.seals then None
      else if KeyFor(h, r) !in w.blobs then Some(w.(seals := w.seals[t := Seal(r, false)]))
      else if w.blobs[KeyFor(h, r)] == r.bytes then Some(w.(seals := w.seals[t := Seal(r, true)]))
      else None // refused: other bytes already stand under this hash
    case Rename(t) =>
      if t !in w.seals || w.seals[t].stored then None
      else
        var r := w.seals[t].request;
        Some(w.(blobs := w.blobs[KeyFor(h, r) := r.bytes], seals := w.seals[t := Seal(r, true)]))
    case WriteRow(t, tx) =>
      if t !in w.seals || !w.seals[t].stored then None
      else
        var rows := if tx in w.transactions then w.transactions[tx] else [];
        Some(w.(transactions := w.transactions[tx := rows + [EntryFor(h, w.seals[t].request)]], seals := w.seals - {t}))
    case Commit(tx, ids) =>
      if tx !in w.transactions then None
      else
        var committed := Committed(w.entries, w.transactions[tx], ids);
        if committed.None? then None
        else Some(w.(entries := committed.value, transactions := w.transactions - {tx}))
    case Rollback(tx) => Some(w.(transactions := w.transactions - {tx}))
    case Crash(t) => Some(w.(seals := w.seals - {t}))
    case Corrupt(key, bytes) => if key in w.blobs then Some(w.(blobs := w.blobs[key := bytes])) else None
    case Lose(key) => Some(w.(blobs := w.blobs - {key}))
  }

  ghost function Exec(h: Digest, steps: seq<Step>): Option<World> {
    if steps == [] then Some(EMPTY)
    else
      match Exec(h, steps[..|steps| - 1])
      case None => None
      case Some(before) => Try(h, before, steps[|steps| - 1])
  }

  predicate Honest(step: Step) {
    !step.Corrupt? && !step.Lose?
  }

  predicate AllHonest(steps: seq<Step>) {
    forall k :: 0 <= k < |steps| ==> Honest(steps[k])
  }

  // ---------------------------------------------------------------------- what every run keeps

  /** A row says what it was sealed from. */
  predicate RowOk(h: Digest, entry: Entry) {
    entry.contentHash == h(entry.sealedFrom) && entry.storageKey.hash == entry.contentHash
  }

  /** True of every run, corrupted or not. */
  ghost predicate RowsOk(h: Digest, w: World) {
    && (forall id :: id in w.entries ==> RowOk(h, w.entries[id]))
    && (forall a, b :: a in w.entries && b in w.entries && IdentityOf(w.entries[a]) == IdentityOf(w.entries[b]) ==> a == b)
    && (forall tx, k :: tx in w.transactions && 0 <= k < |w.transactions[tx]| ==> RowOk(h, w.transactions[tx][k]))
  }

  /** True of every honest run: rows point at blobs, and blobs lie under their own hash. */
  ghost predicate BlobsOk(h: Digest, w: World) {
    && (forall key :: key in w.blobs ==> h(w.blobs[key]) == key.hash)
    && (forall id :: id in w.entries ==> w.entries[id].storageKey in w.blobs)
    && (forall tx, k :: tx in w.transactions && 0 <= k < |w.transactions[tx]| ==> w.transactions[tx][k].storageKey in w.blobs)
    && (forall t :: t in w.seals && w.seals[t].stored ==> KeyFor(h, w.seals[t].request) in w.blobs)
  }

  lemma {:induction false} CommitKeepsRows(h: Digest, entries: map<EntryId, Entry>, rows: seq<Entry>, ids: seq<EntryId>, keys: set<StorageKey>)
    requires Committed(entries, rows, ids).Some?
    requires forall id :: id in entries ==> RowOk(h, entries[id])
    requires forall a, b :: a in entries && b in entries && IdentityOf(entries[a]) == IdentityOf(entries[b]) ==> a == b
    requires forall k :: 0 <= k < |rows| ==> RowOk(h, rows[k])
    ensures var after := Committed(entries, rows, ids).value;
            && (forall id :: id in after ==> RowOk(h, after[id]))
            && (forall a, b :: a in after && b in after && IdentityOf(after[a]) == IdentityOf(after[b]) ==> a == b)
            && (forall id :: id in entries ==> id in after && after[id] == entries[id])
    ensures (forall id :: id in entries ==> entries[id].storageKey in keys) && (forall k :: 0 <= k < |rows| ==> rows[k].storageKey in keys) ==>
              forall id :: id in Committed(entries, rows, ids).value ==> Committed(entries, rows, ids).value[id].storageKey in keys
    decreases |rows|
  {
    if rows != [] {
      var next := if Taken(entries, IdentityOf(rows[0])) then entries else entries[ids[0] := rows[0]];
      forall id | id in entries && IdentityOf(entries[id]) == IdentityOf(rows[0]) ensures Taken(entries, IdentityOf(rows[0])) {}
      CommitKeepsRows(h, next, rows[1..], ids[1..], keys);
    }
  }

  lemma StepKeepsRows(h: Digest, w: World, step: Step)
    requires RowsOk(h, w) && Try(h, w, step).Some?
    ensures RowsOk(h, Try(h, w, step).value)
  {
    if step.Commit? {
      CommitKeepsRows(h, w.entries, w.transactions[step.transaction], step.ids, {});
    }
  }

  lemma StepKeepsBlobs(h: Digest, w: World, step: Step)
    requires RowsOk(h, w) && BlobsOk(h, w) && Honest(step) && Try(h, w, step).Some?
    ensures BlobsOk(h, Try(h, w, step).value)
  {
    if step.Commit? {
      CommitKeepsRows(h, w.entries, w.transactions[step.transaction], step.ids, w.blobs.Keys);
    }
  }

  lemma {:induction false} ExecKeepsRows(h: Digest, steps: seq<Step>)
    requires Exec(h, steps).Some?
    ensures RowsOk(h, Exec(h, steps).value)
  {
    hide Try;
    if steps != [] {
      ExecKeepsRows(h, steps[..|steps| - 1]);
      StepKeepsRows(h, Exec(h, steps[..|steps| - 1]).value, steps[|steps| - 1]);
    }
  }

  /**
   However seals crash and transactions roll back, every archive row points at a stored blob, every
   blob's bytes hash to its own address, and no two rows stand for the same content of one invoice.
   */
  lemma {:induction false} ArchiveIsWhole(h: Digest, steps: seq<Step>)
    requires Exec(h, steps).Some? && AllHonest(steps)
    ensures RowsOk(h, Exec(h, steps).value) && BlobsOk(h, Exec(h, steps).value)
  {
    ExecKeepsRows(h, steps);
    hide Try, RowsOk, BlobsOk;
    if steps == [] {
      EmptyIsWhole(h);
    } else {
      ArchiveIsWhole(h, steps[..|steps| - 1]);
      StepKeepsBlobs(h, Exec(h, steps[..|steps| - 1]).value, steps[|steps| - 1]);
    }
  }

  lemma EmptyIsWhole(h: Digest)
    ensures BlobsOk(h, EMPTY)
  {}

  // ---------------------------------------------------------------------- reading back

  datatype RetrieveError = NoEntry | NoBlob | Compromised

  function Retrieved(h: Digest, w: World, tenant: TenantId, id: EntryId): Result<Bytes, RetrieveError> {
    if id !in w.entries || w.entries[id].tenant != tenant then Err(NoEntry)
    else
      var entry := w.entries[id];
      if entry.storageKey !in w.blobs then Err(NoBlob)
      else if h(w.blobs[entry.storageKey]) != entry.contentHash then Err(Compromised)
      else Ok(w.blobs[entry.storageKey])
  }

  ghost predicate CollisionFree(h: Digest) {
    forall a, b :: h(a) == h(b) ==> a == b
  }

  /** Whatever happened to the store, reading back gives the sealed bytes or an error. */
  lemma RetrieveIsHonest(h: Digest, steps: seq<Step>, tenant: TenantId, id: EntryId)
    requires Exec(h, steps).Some? && CollisionFree(h)
    ensures var w := Exec(h, steps).value;
            Retrieved(h, w, tenant, id).Ok? ==> id in w.entries && Retrieved(h, w, tenant, id).value == w.entries[id].sealedFrom
  {
    ExecKeepsRows(h, steps);
    var w := Exec(h, steps).value;
    if Retrieved(h, w, tenant, id).Ok? {
      assert RowOk(h, w.entries[id]);
    }
  }

  /** And while nobody tampers with the store, it succeeds for every row of the tenant. */
  lemma RetrieveSucceeds(h: Digest, steps: seq<Step>, tenant: TenantId, id: EntryId)
    requires Exec(h, steps).Some? && AllHonest(steps) && CollisionFree(h)
    requires id in Exec(h, steps).value.entries && Exec(h, steps).value.entries[id].tenant == tenant
    ensures Retrieved(h, Exec(h, steps).value, tenant, id) == Ok(Exec(h, steps).value.entries[id].sealedFrom)
  {
    ArchiveIsWhole(h, steps);
    assert RowOk(h, Exec(h, steps).value.entries[id]);
  }

  // ---------------------------------------------------------------------- the service, one call at a time

  datatype SealError = Immutable

  /** What one seal may do: refuse, find the row there is, or add one; the bytes are stored once. */
  ghost predicate Sealed(h: Digest, w: World, r: Request, answer: Result<EntryId, SealError>, v: World) {
    var key := StorageKey(h(r.bytes), r.extension);
    match answer
    case Err(Immutable) => key in w.blobs && w.blobs[key] != r.bytes && v == w
    case Ok(id) =>
      && (key in w.blobs ==> w.blobs[key] == r.bytes)
      && v.blobs == w.blobs[key := r.bytes]
      && id in v.entries
      && IdentityOf(v.entries[id]) == Identity(r.tenant, r.invoice, h(r.bytes))
      && (if Taken(w.entries, Identity(r.tenant, r.invoice, h(r.bytes))) then v.entries == w.entries
          else id !in w.entries &&
               v.entries == w.entries[id := Entry(r.tenant, r.invoice, h(r.bytes), key, r.kind, |r.bytes|, r.bytes)])
      && v == w.(blobs := v.blobs, entries := v.entries)
  }

  /** Sealing the same bytes for the same invoice again adds nothing and names the same row. */
  lemma SealIsIdempotent(h: Digest, w: World, r: Request, first: Result<EntryId, SealError>, v: World,
                         second: Result<EntryId, SealError>, u: World)
    requires RowsOk(h, v) && Sealed(h, w, r, first, v) && first.Ok? && Sealed(h, v, r, second, u)
    ensures second == first && u == v
  {
    assert Taken(v.entries, Identity(r.tenant, r.invoice, h(r.bytes)));
    assert v.blobs[KeyFor(h, r) := r.bytes] == v.blobs;
  }

  /** The same bytes under another invoice get a row of their own, and are not stored again. */
  lemma AnotherInvoiceGetsItsOwnRow(h: Digest, w: World, r: Request, first: Result<EntryId, SealError>, v: World,
                                    invoice: InvoiceId, second: Result<EntryId, SealError>, u: World)
    requires Sealed(h, w, r, first, v) && first.Ok? && r.invoice != Some(invoice)
    requires Sealed(h, v, r.(invoice := Some(invoice)), second, u)
    ensures second.Ok? && second != first && u.blobs == v.blobs
    ensures first.value in u.entries && u.entries[first.value] == v.entries[first.value]
  {
    assert v.blobs[KeyFor(h, r) := r.bytes] == v.blobs;
  }

  /** A seal that nothing interrupts, in a transaction of its own: put and written, then committed. */
  ghost function PutAndWritten(h: Digest, w: World, r: Request, t: TaskId, tx: TaskId): Option<World> {
    match Try(h, w, StartPut(t, r))
    case None => None
    case Some(a) =>
      match (if KeyFor(h, r) in w.blobs then Some(a) else Try(h, a, Rename(t)))
      case None => None
      case Some(b) => Try(h, b, WriteRow(t, tx))
  }

  ghost function SealAlone(h: Digest, w: World, r: Request, t: TaskId, tx: TaskId, id: EntryId): Option<World> {
    match PutAndWritten(h, w, r, t, tx)
    case None => None
    case Some(a) => Try(h, a, Commit(tx, [id]))
  }

  lemma WrittenAlone(h: Digest, w: World, r: Request, t: TaskId, tx: TaskId)
    requires t !in w.seals && tx !in w.transactions
    ensures var key := KeyFor(h, r);
            PutAndWritten(h, w, r, t, tx) ==
              if key in w.blobs && w.blobs[key] != r.bytes then None
              else Some(w.(blobs := w.blobs[key := r.bytes], transactions := w.transactions[tx := [EntryFor(h, r)]]))
  {
    var key := KeyFor(h, r);
    if !(key in w.blobs && w.blobs[key] != r.bytes) {
      assert w.seals[t := Seal(r, true)] - {t} == w.seals;
      assert w.seals[t := Seal(r, false)][t := Seal(r, true)] == w.seals[t := Seal(r, true)];
      assert key in w.blobs ==> w.blobs[key := r.bytes] == w.blobs;
      assert [] + [EntryFor(h, r)] == [EntryFor(h, r)];
    }
  }

  lemma CommittedAlone(entries: map<EntryId, Entry>, row: Entry, id: EntryId)
    requires id !in entries
    ensures Committed(entries, [row], [id]) == Some(if Taken(entries, IdentityOf(row)) then entries else entries[id := row])
  {
    assert [row][1..] == [] && [id][1..] == [];
  }

  /** Its effect is the one the service states, and it is refused exactly when other bytes stand under the address. */
  lemma SealAloneIsSealed(h: Digest, w: World, r: Request, t: TaskId, tx: TaskId, id: EntryId) returns (answer: EntryId)
    requires t !in w.seals && tx !in w.transactions && id !in w.entries
    ensures var key, run := StorageKey(h(r.bytes), r.extension), SealAlone(h, w, r, t, tx, id);
            && (run.None? <==> key in w.blobs && w.blobs[key] != r.bytes)
            && (run.Some? ==> Sealed(h, w, r, Ok(answer), run.value))
  {
    WrittenAlone(h, w, r, t, tx);
    CommittedAlone(w.entries, EntryFor(h, r), id);
    answer := id;
    if existing :| existing in w.entries && IdentityOf(w.entries[existing]) == Identity(r.tenant, r.invoice, h(r.bytes)) {
      answer := existing;
    }
    hide PutAndWritten, Committed;
    var before := w.transactions;
    assert before[tx := [EntryFor(h, r)]] - {tx} == before;
  }

  class ArchivingService {
    const h: Digest
    var blobs: map<StorageKey, Bytes>
    var entries: map<EntryId, Entry>

    ghost function State(): World
      reads this
    {
      World(blobs, entries, map[], map[])
    }

    constructor (h: Digest)
      ensures this.h == h && State() == EMPTY
    {
      this.h := h;
      blobs, entries := map[], map[];
    }

    /** Identical bytes are a no-op; other bytes under the same address are refused. */
    method Put(r: Request) returns (stored: Result<StorageKey, SealError>)
      modifies this`blobs
      ensures var key := StorageKey(h(r.bytes), r.extension);
              if key in old(blobs) && old(blobs)[key] != r.bytes then stored.Err?
              else stored == Ok(key) && blobs == old(blobs)[key := r.bytes]
      ensures stored.Err? ==> blobs == old(blobs)
    {
      var key := KeyFor(h, r);
      if key in blobs {
        if blobs[key] != r.bytes {
          return Err(Immutable);
        }
        assert blobs == blobs[key := r.bytes];
        return Ok(key);
      }
      blobs := blobs[key := r.bytes];
      stored := Ok(key);
    }

    /** Storage first, then the row; `id` is the identifier drawn should a row be needed. */
    method Seal(r: Request, id: EntryId) returns (answer: Result<EntryId, SealError>)
      requires id !in entries
      modifies this
      ensures Sealed(h, old(State()), r, answer, State())
    {
      var stored := Put(r);
      if stored.Err? {
        return Err(stored.error);
      }
      var identity := Identity(r.tenant, r.invoice, h(r.bytes));
      if existing :| existing in entries && IdentityOf(entries[existing]) == identity {
        return Ok(existing);
      }
      entries := entries[id := EntryFor(h, r)];
      answer := Ok(id);
    }

    /**
     Nothing of another tenant is answered, and what is answered hashes to what was recorded. When the
     digest has no collisions and the row says what it was sealed from, the answer is those very bytes if
     they are still what is stored, and a complaint if they are not.
     */
    method Retrieve(tenant: TenantId, id: EntryId) returns (answer: Result<Bytes, RetrieveError>)
      ensures answer == Retrieved(h, State(), tenant, id)
      ensures answer != Err(NoEntry) <==> id in entries && entries[id].tenant == tenant
      ensures answer.Ok? ==> id in entries && entries[id].tenant == tenant && h(answer.value) == entries[id].contentHash
      ensures id in entries && entries[id].tenant == tenant && CollisionFree(h) && RowOk(h, entries[id]) ==>
                answer == if entries[id].storageKey !in blobs then Err(NoBlob)
                          else if blobs[entries[id].storageKey] == entries[id].sealedFrom then Ok(entries[id].sealedFrom)
                          else Err(Compromised)
    {
      if id !in entries || entries[id].tenant != tenant {
        return Err(NoEntry);
      }
      var entry := entries[id];
      if entry.storageKey !in blobs {
        return Err(NoBlob);
      }
      var bytes := blobs[entry.storageKey];
      if h(bytes) != entry.contentHash {
        return Err(Compromised);
      }
      answer := Ok(bytes);
    }
  }
}
