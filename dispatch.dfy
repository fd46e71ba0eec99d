/**
 * The producer side of the driver: every entry of the target list is trimmed,
 * blank entries are dropped, and the rest are sent to the workers in order.
 */
module Dispatch {
  import opened Text

  /** The entry the producer sends for `t`, if any. */
  function Cleaned(t: string): (r: seq<string>)
    ensures |r| <= 1
    ensures |r| == 1 ==> r[0] != [] && IsTrimmed(r[0])
  {
    var url := TrimSpace(t);
    if url == [] then [] else [url]
  }

  /** The targets the producer sends, in the order it sends them. */
  function Dispatched(targets: seq<string>): (sent: seq<string>)
    ensures |sent| <= |targets|
  {
    if targets == [] then []
    else Dispatched(targets[..|targets| - 1]) + Cleaned(targets[|targets| - 1])
  }

  /** The loop over the target list that feeds the channel. */
  method DispatchTargets(targets: seq<string>) returns (sent: seq<string>)
    ensures sent == Dispatched(targets)
    ensures forall k :: 0 <= k < |sent| ==> sent[k] != [] && IsTrimmed(sent[k])
  {
    sent := [];
    for i := 0 to |targets|
      invariant sent == Dispatched(targets[..i])
      invariant forall k :: 0 <= k < |sent| ==> sent[k] != [] && IsTrimmed(sent[k])
    {
      assert targets[..i + 1][..i] == targets[..i];
      var url := TrimSpace(targets[i]);
      if url != [] {
        sent := sent + [url];
      }
    }
    assert targets[..|targets|] == targets;
  }

  /** Nothing blank and nothing with white space at either end is ever sent. */
  lemma {:induction false} DispatchedClean(targets: seq<string>)
    ensures forall k :: 0 <= k < |Dispatched(targets)| ==>
              Dispatched(targets)[k] != [] && IsTrimmed(Dispatched(targets)[k])
    decreases |targets|
  {
    if targets != [] {
      DispatchedClean(targets[..|targets| - 1]);
    }
  }

  /** Strictly increasing indices: each is larger than the one before it. */
  predicate Increasing(xs: seq<nat>)
  {
    forall k :: 0 < k < |xs| ==> xs[k - 1] < xs[k]
  }

  lemma IncreasingExtend(xs: seq<nat>, n: nat)
    requires Increasing(xs) && (xs != [] ==> xs[|xs| - 1] < n)
    ensures Increasing(xs + [n])
  {
    var ys := xs + [n];
    forall k | 0 < k < |ys| ensures ys[k - 1] < ys[k] {
      assert ys[k - 1] == xs[k - 1];
    }
  }

  /** Every entry of `targets` that is not blank after trimming is listed in `origin`. */
  predicate CoversNonBlank(targets: seq<string>, origin: seq<nat>)
  {
    forall i :: 0 <= i < |targets| && TrimSpace(targets[i]) != [] ==> i in origin
  }

  /** The index of the entry each dispatched target came from. */
  function Origins(targets: seq<string>): (origin: seq<nat>)
    ensures |origin| == |Dispatched(targets)|
    ensures forall k :: 0 <= k < |origin| ==> origin[k] < |targets|
  {
    if targets == [] then []
    else
      var n := |targets| - 1;
      Origins(targets[..n]) + (if TrimSpace(targets[n]) != [] then [n] else [])
  }

  lemma {:induction false} OriginsIncreasing(targets: seq<string>)
    ensures Increasing(Origins(targets))
    decreases |targets|
  {
    if targets != [] {
      var n := |targets| - 1;
      var prev := Origins(targets[..n]);
      OriginsIncreasing(targets[..n]);
      if TrimSpace(targets[n]) != [] {
        IncreasingExtend(prev, n);
      }
    }
  }

  lemma {:induction false} OriginsMatch(targets: seq<string>)
    ensures forall k :: 0 <= k < |Origins(targets)| ==>
              Dispatched(targets)[k] == TrimSpace(targets[Origins(targets)[k]])
    decreases |targets|
  {
    if targets != [] {
      var n := |targets| - 1;
      var init, last := targets[..n], targets[n];
      var prev, origin := Origins(init), Origins(targets);
      var before, sent := Dispatched(init), Dispatched(targets);
      OriginsMatch(init);
      assert sent == before + Cleaned(last);
      forall k | 0 <= k < |origin| ensures sent[k] == TrimSpace(targets[origin[k]]) {
        if k < |prev| {
          assert sent[k] == before[k];
          assert origin[k] == prev[k];
          assert init[prev[k]] == targets[prev[k]];
        } else {
          assert origin[k] == n;
        }
      }
    }
  }

  lemma {:induction false} OriginsCover(targets: seq<string>)
    ensures CoversNonBlank(targets, Origins(targets))
    decreases |targets|
  {
    if targets != [] {
      var n := |targets| - 1;
      var init := targets[..n];
      var prev, origin := Origins(init), Origins(targets);
      OriginsCover(init);
      if TrimSpace(targets[n]) != [] {
        assert origin == prev + [n];
        forall i | 0 <= i < |targets| && TrimSpace(targets[i]) != [] ensures i in origin {
          if i < n {
            assert targets[i] == init[i];
            assert i in prev;
          } else {
            assert origin[|prev|] == n;
          }
        }
      } else {
        assert origin == prev;
        forall i | 0 <= i < |targets| && TrimSpace(targets[i]) != [] ensures i in origin {
          assert i != n;
          assert targets[i] == init[i];
        }
      }
    }
  }

  /**
   * What is sent is exactly the trimmed non-blank entries, in their original
   * order: `origin[k]` is the entry that `sent[k]` came from, the origins
   * increase, and every entry that is not blank after trimming is an origin.
   */
  lemma DispatchedOrigins(targets: seq<string>) returns (origin: seq<nat>)
    ensures |origin| == |Dispatched(targets)| && Increasing(origin)
    ensures forall k :: 0 <= k < |origin| ==>
              origin[k] < |targets| && Dispatched(targets)[k] == TrimSpace(targets[origin[k]])
    ensures CoversNonBlank(targets, origin)
  {
    origin := Origins(targets);
    OriginsIncreasing(targets);
    OriginsMatch(targets);
    OriginsCover(targets);
  }

  /** Trimming twice sends nothing new: dispatching the dispatched list changes nothing. */
  lemma {:induction false} DispatchedIdempotent(targets: seq<string>)
    ensures Dispatched(Dispatched(targets)) == Dispatched(targets)
    decreases |targets|
  {
    if targets != [] {
      var init := targets[..|targets| - 1];
      var tail := Cleaned(targets[|targets| - 1]);
      DispatchedIdempotent(init);
      DispatchedAppend(Dispatched(init), tail);
      if tail != [] {
        TrimSpaceIdempotent(targets[|targets| - 1]);
        assert Dispatched(tail) == Dispatched([]) + Cleaned(tail[0]);
      }
    }
  }

  /** Dispatching a concatenation dispatches each part. */
  lemma {:induction false} DispatchedAppend(a: seq<string>, b: seq<string>)
    ensures Dispatched(a + b) == Dispatched(a) + Dispatched(b)
    decreases |b|
  {
    if b == [] {
      assert a + b == a;
    } else {
      var init := b[..|b| - 1];
      assert (a + b)[..|a + b| - 1] == a + init;
      DispatchedAppend(a, init);
    }
  }

  /** A blank entry is dropped, surrounding white space is trimmed. */
  lemma DispatchExample()
    ensures Dispatched(["a.com", "", "  b.org  "]) == ["a.com", "b.org"]
  {
    var a, b := "a.com", "b.org";
    var c := "  " + b + "  ";
    assert c == "  b.org  ";
    assert Cleaned(a) == [a] by { TrimSpaceOfTrimmed(a); }
    assert Cleaned(c) == [b] by { TrimSpaceAround("  ", b, "  "); }
    assert Dispatched([a, ""]) == [a] by {
      assert [a, ""][..1] == [a] && [a][..0] == [];
      assert Cleaned("") == [];
    }
    assert [a, "", c][..2] == [a, ""];
  }
}
