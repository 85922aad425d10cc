/** The in-memory platform, shown to be one of the platforms the protocol talks to. */
module Sandbox {
  import opened Lifecycle
  import opened Pdp
  import opened PdpSync

  function After(statuses: seq<Update>, since: Time): seq<Update> {
    if statuses == [] then []
    else
      var front, last := statuses[..|statuses| - 1], statuses[|statuses| - 1];
      if last.occurredAt > since then After(front, since) + [last] else After(front, since)
  }

  lemma {:induction false} AfterKeepsTheLater(statuses: seq<Update>, since: Time)
    ensures forall u :: u in After(statuses, since) <==> u in statuses && u.occurredAt > since
  {
    if statuses != [] {
      var front, last := statuses[..|statuses| - 1], statuses[|statuses| - 1];
      AfterKeepsTheLater(front, since);
      assert statuses == front + [last];
    }
  }

  /** What the sandbox filters out for `since` is, once sorted, a complete answer to it. */
  lemma FilterIsAnAnswer(statuses: seq<Update>, since: Time)
    ensures IsAnswer(statuses, since, Sorted(After(statuses, since)))
  {
    AfterKeepsTheLater(statuses, since);
    SortedIsSorted(After(statuses, since));
  }

  /** The three times the clock is read for a new document. */
  datatype Readings = Readings(accepted: Time, deposited: Time, delivered: Time)

  /** The two statuses a new document produces; the second is dated one second ahead. */
  function Announced(externalId: ExternalId, clock: Readings): seq<Update> {
    [Update(externalId, DEPOSEE, clock.deposited),
     Update(externalId, RECUE_PAR_LA_PLATEFORME_DESTINATAIRE, clock.delivered + 1000)]
  }

  class SandboxProvider {
    /** Keyed by deduplication key, so that a replayed send returns the original result. */
    var transmitted: map<Key, Receipt>
    var statuses: seq<Update>

    constructor ()
      ensures transmitted == map[] && statuses == []
    {
      transmitted := map[];
      statuses := [];
    }

    method Transmit(key: Key, minted: ExternalId, clock: Readings) returns (receipt: Receipt)
      modifies this
      ensures key in transmitted && receipt == transmitted[key]
      ensures key in old(transmitted) ==> transmitted == old(transmitted) && statuses == old(statuses)
      ensures key !in old(transmitted) ==>
                && receipt == Receipt(minted, clock.accepted)
                && transmitted == old(transmitted)[key := receipt]
                && statuses == old(statuses) + Announced(minted, clock)
    {
      if key in transmitted {
        return transmitted[key];
      }
      receipt := Receipt(minted, clock.accepted);
      transmitted := transmitted[key := receipt];
      statuses := statuses + [Update(minted, DEPOSEE, clock.deposited)];
      statuses := statuses + [Update(minted, RECUE_PAR_LA_PLATEFORME_DESTINATAIRE, clock.delivered + 1000)];
    }

    method FetchStatuses(since: Time) returns (updates: seq<Update>)
      ensures updates == After(statuses, since)
      ensures IsAnswer(statuses, since, Sorted(updates))
    {
      updates := [];
      var k := 0;
      while k < |statuses|
        invariant 0 <= k <= |statuses| && updates == After(statuses[..k], since)
      {
        assert statuses[..k + 1][..k] == statuses[..k];
        if statuses[k].occurredAt > since {
          updates := updates + [statuses[k]];
        }
        k := k + 1;
      }
      assert statuses[..k] == statuses;
      FilterIsAnAnswer(statuses, since);
    }
  }

  /** The sandbox's two fields hold exactly what the world says platform `p` holds and has published. */
  ghost predicate Realises(transmitted: map<Key, Receipt>, statuses: seq<Update>, w: World, p: Provider) {
    && (forall key :: key in transmitted <==> DocumentId(p, key) in w.documents)
    && (forall key :: key in transmitted ==> w.documents[DocumentId(p, key)] == transmitted[key])
    && statuses == Stream(w, p)
  }

  /** The world after the sandbox has published the statuses of a new document. */
  ghost function Published(w: World, p: Provider, updates: seq<Update>): World
    decreases |updates|
  {
    if updates == [] then w else Published(AfterPublish(w, p, updates[0]), p, updates[1..])
  }

  /**
   A send answered by the sandbox is the protocol's send step followed by the publications it causes:
   the worker is handed the same receipt and the platform ends up holding the same documents.
   */
  lemma SandboxIsAPlatform(transmitted: map<Key, Receipt>, statuses: seq<Update>, w: World, t: TaskId, minted: ExternalId, clock: Readings)
    requires CanSend(w, t, Receipt(minted, clock.accepted))
    requires Realises(transmitted, statuses, w, DocumentOf(w, w.attempts[t].row).provider)
    ensures var d := DocumentOf(w, w.attempts[t].row);
            var known := d.key in transmitted;
            var transmitted' := if known then transmitted else transmitted[d.key := Receipt(minted, clock.accepted)];
            var updates := if known then [] else Announced(minted, clock);
            var v := Published(AfterSend(w, t, Receipt(minted, clock.accepted), true), d.provider, updates);
            && Realises(transmitted', statuses + updates, v, d.provider)
            && t in v.attempts && v.attempts[t].outcome == Accepted(transmitted'[d.key])
  {
    hide Announced;
    var d := DocumentOf(w, w.attempts[t].row);
    var sent := AfterSend(w, t, Receipt(minted, clock.accepted), true);
    assert Stream(sent, d.provider) == Stream(w, d.provider);
    if d.key !in transmitted {
      AnnouncedIsTwo(minted, clock);
      PublishedTwice(sent, d.provider, Announced(minted, clock)[0], Announced(minted, clock)[1]);
    } else {
      assert statuses + [] == statuses;
    }
  }

  lemma AnnouncedIsTwo(externalId: ExternalId, clock: Readings)
    ensures |Announced(externalId, clock)| == 2 && Announced(externalId, clock) == [Announced(externalId, clock)[0], Announced(externalId, clock)[1]]
  {}

  lemma PublishedTwice(w: World, p: Provider, first: Update, second: Update)
    ensures var v := Published(w, p, [first, second]);
            v == w.(published := v.published) && Stream(v, p) == Stream(w, p) + [first, second]
  {
    var once := AfterPublish(w, p, first);
    assert [first, second][1..] == [second] && [second][1..] == [];
    assert Published(once, p, [second]) == AfterPublish(once, p, second);
    assert Stream(w, p) + [first] + [second] == Stream(w, p) + [first, second];
  }
}
