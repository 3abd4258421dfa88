/** What a replay keeps of a stream: of each field, what the last event that says something about it said. */
module Histories {
  import opened Options

  /** The value is what the last event that says something about it said, or the initial one if none does. Events
      are numbered from one. */
  ghost predicate LastSaid<E(!new), V(!new)>(h: seq<E>, says: (nat, E) -> Option<V>, initial: V, v: V) {
    || (v == initial && forall i :: 0 <= i < |h| ==> says(i + 1, h[i]).None?)
    || exists i :: LastAt(h, says, v, i)
  }

  ghost predicate LastAt<E(!new), V(!new)>(h: seq<E>, says: (nat, E) -> Option<V>, v: V, i: int) {
    && 0 <= i < |h| && says(i + 1, h[i]) == Some(v)
    && forall j :: i < j < |h| ==> says(j + 1, h[j]).None?
  }

  lemma {:induction false} NothingSaid<E(!new), V(!new)>(says: (nat, E) -> Option<V>, initial: V)
    ensures LastSaid([], says, initial, initial)
  {
  }

  /** One more event either says something, or leaves the value alone. */
  lemma {:induction false} SaysMore<E(!new), V(!new)>(h: seq<E>, e: E, says: (nat, E) -> Option<V>, initial: V, v: V)
    requires LastSaid(h, says, initial, v)
    ensures var said := says(|h| + 1, e);
            LastSaid(h + [e], says, initial, if said.Some? then said.value else v)
  {
    var all, said := h + [e], says(|h| + 1, e);
    if said.Some? {
      assert LastAt(all, says, said.value, |h|);
    } else if i :| LastAt(h, says, v, i) {
      assert all[i] == h[i];
      forall j | i < j < |all| ensures says(j + 1, all[j]).None? {
        assert j < |h| ==> all[j] == h[j];
      }
      assert LastAt(all, says, v, i);
    } else {
      forall j | 0 <= j < |all| ensures says(j + 1, all[j]).None? {
        assert j < |h| ==> all[j] == h[j];
      }
    }
  }
}
