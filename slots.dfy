/**
 * The six fixed company slots every chart record is keyed by, their
 * property names, and the chart-level selection of one slot or all.
 */
module Slots {
  import opened Wrappers

  datatype Slot = Client | Competitor1 | Competitor2 | Competitor3 | Competitor4 | Competitor5

  /** The slots in the order `Object.entries` visits the `competitorNames` defaults. */
  const AllSlots: seq<Slot> := [Client, Competitor1, Competitor2, Competitor3, Competitor4, Competitor5]

  /** The property name a slot has in the chart records. */
  function Key(s: Slot): string {
    match s
    case Client => "client"
    case Competitor1 => "competitor1"
    case Competitor2 => "competitor2"
    case Competitor3 => "competitor3"
    case Competitor4 => "competitor4"
    case Competitor5 => "competitor5"
  }

  /** Looks a property name up among the slots (`competitorNames[key]`). */
  function SlotOfKey(k: string): (r: Option<Slot>)
    ensures r.Some? ==> Key(r.value) == k
  {
    if k == "client" then Some(Client)
    else if k == "competitor1" then Some(Competitor1)
    else if k == "competitor2" then Some(Competitor2)
    else if k == "competitor3" then Some(Competitor3)
    else if k == "competitor4" then Some(Competitor4)
    else if k == "competitor5" then Some(Competitor5)
    else None
  }

  /** Every slot's key resolves back to that slot, so distinct slots have distinct keys. */
  lemma KeyRoundTrip(s: Slot)
    ensures SlotOfKey(Key(s)) == Some(s)
  {
  }

  lemma KeyInjective(s: Slot, t: Slot)
    ensures Key(s) == Key(t) ==> s == t
  {
    KeyRoundTrip(s);
    KeyRoundTrip(t);
  }

  /** No slot key contains an underscore. */
  lemma KeyHasNoUnderscore(s: Slot)
    ensures '_' !in Key(s)
  {
  }

  /** The comparison views visit every slot. */
  lemma AllSlotsComplete()
    ensures forall s: Slot :: s in AllSlots
  {
    forall s: Slot
      ensures s in AllSlots
    {
      match s
      case Client => assert AllSlots[0] == s;
      case Competitor1 => assert AllSlots[1] == s;
      case Competitor2 => assert AllSlots[2] == s;
      case Competitor3 => assert AllSlots[3] == s;
      case Competitor4 => assert AllSlots[4] == s;
      case Competitor5 => assert AllSlots[5] == s;
    }
  }

  /** The company toggle of a chart: one slot, or 'all' for the comparison view. */
  datatype Selection = All | One(slot: Slot)

  /**
   * The slot the headline figures are taken from: the selected one, and
   * `client` in the comparison view.
   */
  function Focus(sel: Selection): (s: Slot)
    ensures sel.One? ==> s == sel.slot
    ensures sel.All? ==> s == Client
  {
    match sel
    case All => Client
    case One(slot) => slot
  }
}
