/** The invocation list behind a command's `CanExecuteChanged` event.
    A subscription `+= h` appends `h`; an unsubscription `-= h` removes the
    LAST occurrence of `h` and leaves the list alone when `h` is absent.
    Raising the event invokes the list from first to last. */
module Events {

  /** The identity of one subscribed event handler (delegate equality). */
  type Handler = nat

  /** Index of the last occurrence of `h` in `s`, or -1 when there is none. */
  function LastIndexOf(s: seq<Handler>, h: Handler): (i: int)
    ensures -1 <= i < |s|
    ensures i >= 0 ==> s[i] == h
    ensures forall j :: i < j < |s| ==> s[j] != h
    ensures i == -1 <==> h !in s
  {
    if s == [] then -1
    else if s[|s| - 1] == h then |s| - 1
    else LastIndexOf(s[..|s| - 1], h)
  }

  /** `list += h` */
  function Combine(s: seq<Handler>, h: Handler): (r: seq<Handler>)
    ensures |r| == |s| + 1 && r[..|s|] == s && r[|s|] == h
  {
    s + [h]
  }

  /** `list -= h`: one entry shorter when `h` is subscribed, and the list as
      it was when it is not. */
  function Remove(s: seq<Handler>, h: Handler): (r: seq<Handler>)
    ensures |r| == if h in s then |s| - 1 else |s|
    ensures h !in s ==> r == s
  {
    if s == [] then []
    else
      var n := |s| - 1;
      assert s == s[..n] + [s[n]];
      if s[n] == h then s[..n] else Remove(s[..n], h) + [s[n]]
  }

  /** Unsubscribing drops the last occurrence of `h` and keeps the order of
      the rest; it leaves the list alone when `h` is absent. */
  lemma {:induction false} RemoveDropsLastOccurrence(s: seq<Handler>, h: Handler)
    ensures var i := LastIndexOf(s, h);
            Remove(s, h) == if i < 0 then s else s[..i] + s[i + 1..]
  {
    if s != [] && s[|s| - 1] != h {
      var n := |s| - 1;
      var init := s[..n];
      RemoveDropsLastOccurrence(init, h);
      var i := LastIndexOf(init, h);
      assert LastIndexOf(s, h) == i;
      if i < 0 {
        assert h !in s;
      } else {
        assert init[..i] == s[..i];
        assert init[i + 1..] + [s[n]] == s[i + 1..];
      }
    }
  }

  /** Unsubscribing removes exactly one copy of `h` when there is one. */
  lemma {:induction false} RemoveMultiset(s: seq<Handler>, h: Handler)
    ensures multiset(Remove(s, h)) == multiset(s) - multiset{h}
  {
    if s != [] {
      var init := s[..|s| - 1];
      assert s == init + [s[|s| - 1]];
      RemoveMultiset(init, h);
    }
  }

  /** Unsubscribing the handler just subscribed restores the list. */
  lemma RemoveUndoesCombine(s: seq<Handler>, h: Handler)
    ensures Remove(Combine(s, h), h) == s
  {
  }

  /** Unsubscribing an earlier handler keeps a later subscription in place. */
  lemma RemoveCommutesWithCombine(s: seq<Handler>, h: Handler, g: Handler)
    requires h != g
    ensures Remove(Combine(s, g), h) == Combine(Remove(s, h), g)
  {
  }
}
