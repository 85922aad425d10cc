/** The lifecycle vocabulary and the ranking that keeps an invoice's summary state monotone. */
module Lifecycle {
  import opened Prelude

  datatype InvoiceState = DRAFT | VALIDATED | QUEUED | TRANSMITTED | DELIVERED | REJECTED | ARCHIVED

  /** The twelve codes of the vocabulary, our own three internal codes, and any other string. */
  datatype Code =
    | DEPOSEE | REJETEE | PRISE_EN_CHARGE | MISE_A_DISPOSITION | RECUE_PAR_LA_PLATEFORME_DESTINATAIRE
    | APPROUVEE | APPROUVEE_PARTIELLEMENT | REFUSEE | PAIEMENT_TRANSMIS | ENCAISSEE | COMPLETEE | SUSPENDUE
    | RECEIVED | TRANSMISSION_ECHOUEE | TRANSMISSION_ABANDONNEE
    | Unlisted(name: string)

  /** The state a code implies: `None` both for unlisted codes and for listed ones that move nothing. */
  function Implied(code: Code): Option<InvoiceState> {
    match code
    case DEPOSEE => Some(TRANSMITTED)
    case PRISE_EN_CHARGE => Some(TRANSMITTED)
    case MISE_A_DISPOSITION => Some(DELIVERED)
    case RECUE_PAR_LA_PLATEFORME_DESTINATAIRE => Some(DELIVERED)
    case APPROUVEE => Some(DELIVERED)
    case APPROUVEE_PARTIELLEMENT => Some(DELIVERED)
    case REJETEE => Some(REJECTED)
    case REFUSEE => Some(REJECTED)
    case _ => None
  }

  function Rank(state: InvoiceState): nat {
    match state
    case DRAFT => 0
    case VALIDATED => 1
    case QUEUED => 2
    case TRANSMITTED => 3
    case DELIVERED => 4
    case REJECTED => 5
    case ARCHIVED => 6
  }

  /** The state to write when `code` arrives, or `None` when nothing should be written. */
  function AdvanceState(current: InvoiceState, code: Code): Option<InvoiceState> {
    match Implied(code)
    case None => None
    case Some(next) =>
      if current == ARCHIVED then None
      else if Rank(next) <= Rank(current) then None
      else Some(next)
  }

  /** What the invoice's column holds after a caller has acted on `AdvanceState`. */
  function Advanced(current: InvoiceState, code: Code): InvoiceState {
    AdvanceState(current, code).UnwrapOr(current)
  }

  /** `state` is `start`, or implied by one of `codes`, and nothing reached ranks above it. */
  ghost predicate IsFurthest(start: InvoiceState, codes: set<Code>, state: InvoiceState) {
    && (state == start || exists c :: c in codes && Implied(c) == Some(state))
    && Rank(start) <= Rank(state)
    && forall c :: c in codes && Implied(c).Some? ==> Rank(Implied(c).value) <= Rank(state)
  }

  lemma FurthestIsUnique(start: InvoiceState, codes: set<Code>, a: InvoiceState, b: InvoiceState)
    requires IsFurthest(start, codes, a) && IsFurthest(start, codes, b)
    ensures a == b
  {
    assert Rank(a) <= Rank(b) && Rank(b) <= Rank(a);
  }

  lemma AdvancedIsFurthest(start: InvoiceState, codes: set<Code>, state: InvoiceState, code: Code)
    requires IsFurthest(start, codes, state)
    ensures IsFurthest(start, codes + {code}, Advanced(state, code))
  {
    var next := Advanced(state, code);
    if next != state {
      assert code in codes + {code} && Implied(code) == Some(next);
    } else if state != start {
      var c :| c in codes && Implied(c) == Some(state);
      assert c in codes + {code};
    }
  }

  predicate SaysRejected(codes: set<Code>) {
    REJETEE in codes || REFUSEE in codes
  }

  predicate SaysDelivered(codes: set<Code>) {
    || MISE_A_DISPOSITION in codes || RECUE_PAR_LA_PLATEFORME_DESTINATAIRE in codes
    || APPROUVEE in codes || APPROUVEE_PARTIELLEMENT in codes
  }

  predicate SaysTransmitted(codes: set<Code>) {
    DEPOSEE in codes || PRISE_EN_CHARGE in codes
  }

  /** What a state becomes under `codes`, code by code: the reference for the table and the ranking. */
  ghost function StateAfter(start: InvoiceState, codes: set<Code>): InvoiceState {
    if start == ARCHIVED then ARCHIVED
    else if start == REJECTED || SaysRejected(codes) then REJECTED
    else if start == DELIVERED || SaysDelivered(codes) then DELIVERED
    else if start == TRANSMITTED || SaysTransmitted(codes) then TRANSMITTED
    else start
  }

  /** Furthest means what the codes say, and nothing a code says is outranked by another. */
  lemma FurthestIsStateAfter(start: InvoiceState, codes: set<Code>, state: InvoiceState)
    ensures IsFurthest(start, codes, state) <==> state == StateAfter(start, codes)
  {
    var after := StateAfter(start, codes);
    assert IsFurthest(start, codes, after) by {
      assert REJETEE in codes ==> Implied(REJETEE) == Some(REJECTED);
      assert REFUSEE in codes ==> Implied(REFUSEE) == Some(REJECTED);
      assert MISE_A_DISPOSITION in codes ==> Implied(MISE_A_DISPOSITION) == Some(DELIVERED);
      assert RECUE_PAR_LA_PLATEFORME_DESTINATAIRE in codes ==> Implied(RECUE_PAR_LA_PLATEFORME_DESTINATAIRE) == Some(DELIVERED);
      assert APPROUVEE in codes ==> Implied(APPROUVEE) == Some(DELIVERED);
      assert APPROUVEE_PARTIELLEMENT in codes ==> Implied(APPROUVEE_PARTIELLEMENT) == Some(DELIVERED);
      assert DEPOSEE in codes ==> Implied(DEPOSEE) == Some(TRANSMITTED);
      assert PRISE_EN_CHARGE in codes ==> Implied(PRISE_EN_CHARGE) == Some(TRANSMITTED);
    }
    if IsFurthest(start, codes, state) {
      FurthestIsUnique(start, codes, state, after);
    }
  }

  lemma StateAfterGrows(start: InvoiceState, codes: set<Code>, code: Code)
    ensures StateAfter(start, codes + {code}) == Advanced(StateAfter(start, codes), code)
  {
    FurthestIsStateAfter(start, codes, StateAfter(start, codes));
    AdvancedIsFurthest(start, codes, StateAfter(start, codes), code);
    FurthestIsStateAfter(start, codes + {code}, Advanced(StateAfter(start, codes), code));
    hide IsFurthest, StateAfter, Advanced;
  }

  /** One code at a time, and none of the four about payment and suspension moves anything. */
  lemma AdvancedIsStateAfter(state: InvoiceState, code: Code)
    ensures Advanced(state, code) == StateAfter(state, {code})
    ensures code == PAIEMENT_TRANSMIS || code == ENCAISSEE || code == COMPLETEE || code == SUSPENDUE ==> Advanced(state, code) == state
  {}

  function CodesIn(arrivals: seq<Code>): set<Code> {
    set c | c in arrivals
  }

  /** The state after a stream of arrivals, applied one at a time. */
  function Replay(start: InvoiceState, arrivals: seq<Code>): InvoiceState {
    if arrivals == [] then start
    else Advanced(Replay(start, arrivals[..|arrivals| - 1]), arrivals[|arrivals| - 1])
  }

  lemma {:induction false} ReplayIsFurthest(start: InvoiceState, arrivals: seq<Code>)
    ensures IsFurthest(start, CodesIn(arrivals), Replay(start, arrivals))
  {
    if arrivals != [] {
      var before, last := arrivals[..|arrivals| - 1], arrivals[|arrivals| - 1];
      ReplayIsFurthest(start, before);
      AdvancedIsFurthest(start, CodesIn(before), Replay(start, before), last);
      assert CodesIn(arrivals) == CodesIn(before) + {last} by {
        assert arrivals == before + [last];
      }
    }
  }

  /** The summary state forgets order and repetition: only which codes arrived matters. */
  lemma ReplayIgnoresOrderAndRepeats(start: InvoiceState, one: seq<Code>, other: seq<Code>)
    requires forall c :: c in one <==> c in other
    ensures Replay(start, one) == Replay(start, other)
  {
    ReplayIsFurthest(start, one);
    ReplayIsFurthest(start, other);
    assert CodesIn(one) == CodesIn(other);
    FurthestIsUnique(start, CodesIn(one), Replay(start, one), Replay(start, other));
  }
}
