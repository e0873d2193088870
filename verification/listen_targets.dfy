/**
 * Normalisation of the chats the user wants to listen to: names are trimmed,
 * blank names dropped, later duplicates of a trimmed name dropped (the first
 * occurrence keeps its kind), and the list is capped.
 */
module ListenTargets {
  import opened Base
  import opened Text
  import opened Types

  const MaxListenTargets: nat := 50

  function Normalized(t: ListenTarget): ListenTarget {
    ListenTarget(Trim(t.name), t.kind)
  }

  /** Every target with its name trimmed, in order. */
  function NormalizeAll(ts: seq<ListenTarget>): (ns: seq<ListenTarget>)
    ensures |ns| == |ts| && forall i :: 0 <= i < |ts| ==> ns[i] == Normalized(ts[i])
  {
    seq(|ts|, i requires 0 <= i < |ts| => Normalized(ts[i]))
  }

  /** Of already-trimmed targets, each whose name is non-blank and not yet seen,
      in order; with no cap. */
  function Firsts(ns: seq<ListenTarget>, seen: set<string>): seq<ListenTarget>
  {
    if ns == [] then []
    else if ns[0].name == [] || ns[0].name in seen then Firsts(ns[1..], seen)
    else [ns[0]] + Firsts(ns[1..], seen + {ns[0].name})
  }

  /** The normalised list: the first `max` first occurrences of non-blank trimmed names. */
  function Capped(ts: seq<ListenTarget>, max: nat): seq<ListenTarget> {
    var f := Firsts(NormalizeAll(ts), {});
    if |f| <= max then f else f[..max]
  }

  function Names(ts: seq<ListenTarget>): seq<string> {
    if ts == [] then [] else [ts[0].name] + Names(ts[1..])
  }

  /** Position of the first target named `n`, or `|ns|`. */
  function FirstIndexOf(ns: seq<ListenTarget>, n: string): (i: nat)
    ensures i <= |ns|
    ensures i < |ns| ==> ns[i].name == n
  {
    if ns == [] then 0
    else if ns[0].name == n then 0
    else 1 + FirstIndexOf(ns[1..], n)
  }

  /** `normalize_listen_targets`: the loop over the targets, with its `seen` set,
      `continue`s and early `break`. It never fails. */
  method NormalizeListenTargets(targets: seq<ListenTarget>, max: nat) returns (r: Result<seq<ListenTarget>, string>)
    ensures r == Ok(Capped(targets, max))
  {
    if max == 0 {
      return Ok([]);
    }
    ghost var ns := NormalizeAll(targets);
    ghost var f := Firsts(ns, {});
    var seen: set<string> := {};
    var normalized: seq<ListenTarget> := [];
    var i := 0;
    while i < |targets|
      invariant 0 <= i <= |targets|
      invariant |normalized| < max
      invariant normalized + Firsts(ns[i..], seen) == f
    {
      var trimmed := Trim(targets[i].name);
      assert ListenTarget(trimmed, targets[i].kind) == ns[i];
      FirstsLoopStep(ns, i, seen, normalized, f);
      if trimmed == [] || trimmed in seen {
        i := i + 1;
        continue;
      }
      ghost var rest := Firsts(ns[i + 1..], seen + {trimmed});
      seen := seen + {trimmed};
      normalized := normalized + [ListenTarget(trimmed, targets[i].kind)];
      if |normalized| >= max {
        CapReached(f, normalized, rest, max);
        return Ok(normalized);
      }
      i := i + 1;
    }
    assert ns[i..] == [];
    assert normalized == f;
    return Ok(normalized);
  }

  /** The loop of `normalize_listen_targets` after looking at the `i`-th target:
      skipped, or appended with its name now seen. */
  lemma FirstsLoopStep(ns: seq<ListenTarget>, i: nat, seen: set<string>, normalized: seq<ListenTarget>, f: seq<ListenTarget>)
    requires i < |ns|
    requires normalized + Firsts(ns[i..], seen) == f
    ensures ns[i].name == [] || ns[i].name in seen ==> normalized + Firsts(ns[i + 1..], seen) == f
    ensures !(ns[i].name == [] || ns[i].name in seen) ==>
      (normalized + [ns[i]]) + Firsts(ns[i + 1..], seen + {ns[i].name}) == f
  {
    FirstsStep(ns, i, seen);
    if !(ns[i].name == [] || ns[i].name in seen) {
      var rest := Firsts(ns[i + 1..], seen + {ns[i].name});
      assert (normalized + [ns[i]]) + rest == normalized + ([ns[i]] + rest);
    }
  }

  /** Once `max` targets are kept, the rest of the list is cut off. */
  lemma CapReached<T>(f: seq<T>, kept: seq<T>, rest: seq<T>, max: nat)
    requires kept + rest == f && |kept| == max
    ensures (if |f| <= max then f else f[..max]) == kept
  {
    assert f[..max] == kept;
  }

  /** One step of `Firsts` over the suffix starting at `i`. */
  lemma FirstsStep(ns: seq<ListenTarget>, i: nat, seen: set<string>)
    requires i < |ns|
    ensures Firsts(ns[i..], seen) ==
      if ns[i].name == [] || ns[i].name in seen then Firsts(ns[i + 1..], seen)
      else [ns[i]] + Firsts(ns[i + 1..], seen + {ns[i].name})
  {
    assert ns[i..][0] == ns[i] && ns[i..][1..] == ns[i + 1..];
  }

  /** No target before `FirstIndexOf(ns, n)` is named `n`. */
  lemma {:induction false} FirstIndexOfIsFirst(ns: seq<ListenTarget>, n: string)
    ensures forall j :: 0 <= j < FirstIndexOf(ns, n) ==> ns[j].name != n
  {
    if ns != [] && ns[0].name != n {
      FirstIndexOfIsFirst(ns[1..], n);
      assert forall j :: 1 <= j < |ns| ==> ns[j] == ns[1..][j - 1];
    }
  }

  /** Names are trimmed, non-blank, outside `seen` and pairwise distinct. */
  predicate SoundNames(r: seq<ListenTarget>, seen: set<string>) {
    && (forall k :: 0 <= k < |r| ==> r[k].name != [] && r[k].name !in seen)
    && (forall j, k :: 0 <= j < k < |r| ==> r[j].name != r[k].name)
  }

  /** Each target is the first one of `ns` with its name, in the order of `ns`. */
  predicate FirstOccurrences(r: seq<ListenTarget>, ns: seq<ListenTarget>) {
    && (forall k :: 0 <= k < |r| ==> FirstIndexOf(ns, r[k].name) < |ns| && r[k] == ns[FirstIndexOf(ns, r[k].name)])
    && (forall j, k :: 0 <= j < k < |r| ==> FirstIndexOf(ns, r[j].name) < FirstIndexOf(ns, r[k].name))
  }

  lemma {:induction false} FirstsSound(ns: seq<ListenTarget>, seen: set<string>)
    ensures SoundNames(Firsts(ns, seen), seen)
  {
    if ns != [] {
      var n := ns[0].name;
      if n == [] || n in seen {
        FirstsSound(ns[1..], seen);
      } else {
        var tail := Firsts(ns[1..], seen + {n});
        var r := [ns[0]] + tail;
        FirstsSound(ns[1..], seen + {n});
        forall k | 0 <= k < |r| ensures r[k].name != [] && r[k].name !in seen {
          if k > 0 { assert r[k] == tail[k - 1]; }
        }
        forall j, k | 0 <= j < k < |r| ensures r[j].name != r[k].name {
          assert r[k] == tail[k - 1];
          if j > 0 { assert r[j] == tail[j - 1]; }
        }
      }
    }
  }

  /** First occurrences in the tail of `ns`, none named like its head, are first
      occurrences in `ns` itself, all after position 0. */
  lemma ShiftOccurrences(ns: seq<ListenTarget>, tail: seq<ListenTarget>)
    requires ns != [] && FirstOccurrences(tail, ns[1..])
    requires forall k :: 0 <= k < |tail| ==> tail[k].name != ns[0].name
    ensures FirstOccurrences(tail, ns)
    ensures forall k :: 0 <= k < |tail| ==> FirstIndexOf(ns, tail[k].name) > 0
  {
    forall k | 0 <= k < |tail|
      ensures FirstIndexOf(ns, tail[k].name) == 1 + FirstIndexOf(ns[1..], tail[k].name)
      ensures ns[FirstIndexOf(ns, tail[k].name)] == ns[1..][FirstIndexOf(ns[1..], tail[k].name)]
    {
    }
  }

  lemma ConsOccurrence(ns: seq<ListenTarget>, tail: seq<ListenTarget>)
    requires ns != [] && FirstOccurrences(tail, ns)
    requires forall k :: 0 <= k < |tail| ==> FirstIndexOf(ns, tail[k].name) > 0
    ensures FirstOccurrences([ns[0]] + tail, ns)
  {
    ConsAtFirstIndex(ns, tail);
    ConsInOrder(ns, tail);
  }

  lemma ConsAtFirstIndex(ns: seq<ListenTarget>, tail: seq<ListenTarget>)
    requires ns != [] && FirstOccurrences(tail, ns)
    ensures var r := [ns[0]] + tail;
      forall k :: 0 <= k < |r| ==> FirstIndexOf(ns, r[k].name) < |ns| && r[k] == ns[FirstIndexOf(ns, r[k].name)]
  {
    var r := [ns[0]] + tail;
    assert FirstIndexOf(ns, ns[0].name) == 0;
    forall k | 0 <= k < |r|
      ensures FirstIndexOf(ns, r[k].name) < |ns| && r[k] == ns[FirstIndexOf(ns, r[k].name)]
    {
      if k > 0 {
        assert r[k] == tail[k - 1];
      }
    }
  }

  lemma ConsInOrder(ns: seq<ListenTarget>, tail: seq<ListenTarget>)
    requires ns != [] && FirstOccurrences(tail, ns)
    requires forall k :: 0 <= k < |tail| ==> FirstIndexOf(ns, tail[k].name) > 0
    ensures var r := [ns[0]] + tail;
      forall j, k :: 0 <= j < k < |r| ==> FirstIndexOf(ns, r[j].name) < FirstIndexOf(ns, r[k].name)
  {
    var r := [ns[0]] + tail;
    assert FirstIndexOf(ns, ns[0].name) == 0;
    forall j, k | 0 <= j < k < |r| ensures FirstIndexOf(ns, r[j].name) < FirstIndexOf(ns, r[k].name) {
      assert r[k] == tail[k - 1];
      if j > 0 {
        assert r[j] == tail[j - 1];
      }
    }
  }

  lemma {:induction false} FirstsFirstOccurrence(ns: seq<ListenTarget>, seen: set<string>)
    ensures FirstOccurrences(Firsts(ns, seen), ns)
  {
    if ns != [] {
      var n := ns[0].name;
      if n == [] || n in seen {
        FirstsFirstOccurrence(ns[1..], seen);
        FirstsSound(ns[1..], seen);
        ShiftOccurrences(ns, Firsts(ns[1..], seen));
      } else {
        var tail := Firsts(ns[1..], seen + {n});
        FirstsFirstOccurrence(ns[1..], seen + {n});
        FirstsSound(ns[1..], seen + {n});
        assert forall k :: 0 <= k < |tail| ==> tail[k].name !in seen + {n};
        ShiftOccurrences(ns, tail);
        ConsOccurrence(ns, tail);
      }
    }
  }

  /** Nothing eligible is lost: every non-blank, unseen name is in the output. */
  lemma {:induction false} FirstsComplete(ns: seq<ListenTarget>, seen: set<string>)
    ensures forall i :: 0 <= i < |ns| && ns[i].name != [] && ns[i].name !in seen ==>
      ns[i].name in Names(Firsts(ns, seen))
  {
    if ns != [] {
      var n := ns[0].name;
      assert forall i :: 1 <= i < |ns| ==> ns[i] == ns[1..][i - 1];
      if n == [] || n in seen {
        FirstsComplete(ns[1..], seen);
      } else {
        FirstsComplete(ns[1..], seen + {n});
        assert Names(Firsts(ns, seen)) == [n] + Names(Firsts(ns[1..], seen + {n}));
      }
    }
  }

  /** The properties of the normalised list: capped, trimmed, non-blank, no duplicate
      names, the first occurrence of each trimmed name with its own kind, in input
      order, and complete whenever the cap was not reached. */
  lemma CappedProperties(ts: seq<ListenTarget>, max: nat)
    ensures var r := Capped(ts, max);
      && |r| <= max
      && (max == 0 ==> r == [])
      && (forall k :: 0 <= k < |r| ==> r[k].name != [] && Trim(r[k].name) == r[k].name)
      && (forall j, k :: 0 <= j < k < |r| ==> r[j].name != r[k].name)
      && FirstOccurrences(r, NormalizeAll(ts))
      && (forall k :: 0 <= k < |r| ==> exists i :: 0 <= i < |ts| && r[k] == Normalized(ts[i]))
      && (|r| < max ==> forall i :: 0 <= i < |ts| && Trim(ts[i].name) != [] ==> Trim(ts[i].name) in Names(r))
  {
    CappedDistinct(ts, max);
    CappedOrigins(ts, max);
    CappedComplete(ts, max);
  }

  /** The capped list is a prefix of the uncapped one, all of it below the cap. */
  lemma CappedIsPrefix(ts: seq<ListenTarget>, max: nat)
    ensures var f := Firsts(NormalizeAll(ts), {});
      var r := Capped(ts, max);
      && |r| <= max && |r| <= |f| && (max == 0 ==> r == [])
      && (forall k :: 0 <= k < |r| ==> r[k] == f[k])
      && (|r| < max ==> r == f)
  {
  }

  lemma CappedDistinct(ts: seq<ListenTarget>, max: nat)
    ensures var r := Capped(ts, max);
      && (forall k :: 0 <= k < |r| ==> r[k].name != [])
      && (forall j, k :: 0 <= j < k < |r| ==> r[j].name != r[k].name)
  {
    CappedIsPrefix(ts, max);
    FirstsSound(NormalizeAll(ts), {});
  }

  lemma CappedOrigins(ts: seq<ListenTarget>, max: nat)
    ensures var r := Capped(ts, max);
      && (forall k :: 0 <= k < |r| ==> Trim(r[k].name) == r[k].name)
      && FirstOccurrences(r, NormalizeAll(ts))
      && (forall k :: 0 <= k < |r| ==> exists i :: 0 <= i < |ts| && r[k] == Normalized(ts[i]))
  {
    var ns := NormalizeAll(ts);
    CappedIsPrefix(ts, max);
    FirstsFirstOccurrence(ns, {});
    var r := Capped(ts, max);
    forall k | 0 <= k < |r| ensures Trim(r[k].name) == r[k].name && exists i :: 0 <= i < |ts| && r[k] == Normalized(ts[i]) {
      var i := FirstIndexOf(ns, r[k].name);
      TrimIdempotent(Rust, ts[i].name);
    }
  }

  lemma CappedComplete(ts: seq<ListenTarget>, max: nat)
    ensures var r := Capped(ts, max);
      |r| < max ==> forall i :: 0 <= i < |ts| && Trim(ts[i].name) != [] ==> Trim(ts[i].name) in Names(r)
  {
    var ns := NormalizeAll(ts);
    CappedIsPrefix(ts, max);
    FirstsComplete(ns, {});
    forall i | 0 <= i < |ts| ensures ns[i].name == Trim(ts[i].name) { }
  }

  lemma TeamATrims()
    ensures Trim("  Team A ") == "Team A" && Trim("Team A") == "Team A" && Trim("") == ""
  {
    assert "  Team A "[1..] == " Team A " && " Team A "[1..] == "Team A ";
    assert TrimStartIn(Rust, "Team A ") == "Team A ";
    assert TrimStartIn(Rust, "  Team A ") == "Team A ";
    assert "Team A "[..6] == "Team A";
    assert TrimEndIn(Rust, "Team A ") == "Team A";
    assert !IsSpace(Rust, 'T') && !IsSpace(Rust, 'A');
    TrimFixesUntrimmed(Rust, "Team A");
  }

  /** A repeated name is kept once, and a blank one not at all. */
  lemma FirstsRepeatThenBlank(a: ListenTarget, blank: ListenTarget)
    requires a.name != [] && blank.name == []
    ensures Firsts([a, a, blank], {}) == [a]
  {
    var ns := [a, a, blank];
    assert ns[1..] == [a, blank] && ns[1..][1..] == [blank] && ns[1..][1..][1..] == [];
    var seen := {a.name};
    assert {} + {a.name} == seen;
    assert Firsts([blank], seen) == Firsts([], seen) == [];
    assert Firsts([a, blank], seen) == Firsts([blank], seen);
    assert Firsts(ns, {}) == [a] + Firsts([a, blank], seen);
  }

  /** Two spellings of "Team A" and a blank name normalise to one "Team A". */
  lemma TeamAExample()
    ensures Capped([ListenTarget("  Team A ", UnknownKind), ListenTarget("Team A", UnknownKind),
                    ListenTarget("", UnknownKind)], MaxListenTargets)
         == [ListenTarget("Team A", UnknownKind)]
  {
    var ts := [ListenTarget("  Team A ", UnknownKind), ListenTarget("Team A", UnknownKind),
               ListenTarget("", UnknownKind)];
    TeamATrims();
    var a := ListenTarget("Team A", UnknownKind);
    var blank := ListenTarget("", UnknownKind);
    assert NormalizeAll(ts) == [a, a, blank];
    FirstsRepeatThenBlank(a, blank);
  }
}
