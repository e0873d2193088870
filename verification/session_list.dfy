/**
 * The recent-chat list read from the session list on screen (`collect_recent_chats`,
 * identical on macOS and Windows): titles are trimmed, blank ones skipped, and
 * only the first chat with each title kept, in order. The first-occurrence
 * filter over chat summaries, `FirstChats`, also serves the session table of
 * the macOS database.
 */
module SessionList {
  import opened Base
  import opened Text
  import opened Types

  /** The chat a session title stands for. */
  function Summary(title: string): ChatSummary {
    ChatSummary(title, title, UnknownKind)
  }

  /** Each title, trimmed, as a chat. */
  function Summaries(titles: seq<string>): (cs: seq<ChatSummary>)
    ensures |cs| == |titles| && forall i :: 0 <= i < |titles| ==> cs[i] == Summary(Trim(titles[i]))
  {
    seq(|titles|, i requires 0 <= i < |titles| => Summary(Trim(titles[i])))
  }

  /** The chats whose id is not blank and not seen before, in order. */
  function FirstChats(cs: seq<ChatSummary>, seen: set<string>): seq<ChatSummary> {
    if cs == [] then []
    else if IsBlank(cs[0].chatId) || cs[0].chatId in seen then FirstChats(cs[1..], seen)
    else [cs[0]] + FirstChats(cs[1..], seen + {cs[0].chatId})
  }

  /** The recent chats the session list shows. */
  function RecentChats(titles: seq<string>): seq<ChatSummary> {
    FirstChats(Summaries(titles), {})
  }

  function Ids(cs: seq<ChatSummary>): seq<string> {
    if cs == [] then [] else [cs[0].chatId] + Ids(cs[1..])
  }

  /** Position of the first chat with id `id`, or `|cs|`. */
  function FirstIndexOf(cs: seq<ChatSummary>, id: string): (i: nat)
    ensures i <= |cs|
    ensures i < |cs| ==> cs[i].chatId == id
  {
    if cs == [] then 0
    else if cs[0].chatId == id then 0
    else 1 + FirstIndexOf(cs[1..], id)
  }

  lemma FirstChatsStep(cs: seq<ChatSummary>, i: nat, seen: set<string>)
    requires i < |cs|
    ensures FirstChats(cs[i..], seen) ==
      if IsBlank(cs[i].chatId) || cs[i].chatId in seen then FirstChats(cs[i + 1..], seen)
      else [cs[i]] + FirstChats(cs[i + 1..], seen + {cs[i].chatId})
  {
    assert cs[i..][0] == cs[i] && cs[i..][1..] == cs[i + 1..];
  }

  /** One step of a loop that keeps the first chat of each id: what is still to
      be kept after position `i` completes the listing. */
  lemma FirstChatsLoopStep(cs: seq<ChatSummary>, i: nat, seen: set<string>, chats: seq<ChatSummary>, f: seq<ChatSummary>)
    requires i < |cs|
    requires chats + FirstChats(cs[i..], seen) == f
    ensures IsBlank(cs[i].chatId) || cs[i].chatId in seen ==> chats + FirstChats(cs[i + 1..], seen) == f
    ensures !(IsBlank(cs[i].chatId) || cs[i].chatId in seen) ==>
      (chats + [cs[i]]) + FirstChats(cs[i + 1..], seen + {cs[i].chatId}) == f
  {
    FirstChatsStep(cs, i, seen);
    if !(IsBlank(cs[i].chatId) || cs[i].chatId in seen) {
      var rest := FirstChats(cs[i + 1..], seen + {cs[i].chatId});
      assert (chats + [cs[i]]) + rest == chats + ([cs[i]] + rest);
    }
  }

  /** `collect_recent_chats`: the loop with its `seen` set. It never fails. */
  method CollectRecentChats(titles: seq<string>) returns (r: Result<seq<ChatSummary>, string>)
    ensures r == Ok(RecentChats(titles))
  {
    ghost var cs := Summaries(titles);
    ghost var f := FirstChats(cs, {});
    var seen: set<string> := {};
    var chats: seq<ChatSummary> := [];
    var i := 0;
    while i < |titles|
      invariant 0 <= i <= |titles|
      invariant chats + FirstChats(cs[i..], seen) == f
    {
      var title := Trim(titles[i]);
      TitleStep(titles, i, seen);
      if title == [] || title in seen {
        i := i + 1;
        continue;
      }
      ghost var rest := FirstChats(cs[i + 1..], seen + {title});
      assert (chats + [Summary(title)]) + rest == f;
      seen := seen + {title};
      chats := chats + [Summary(title)];
      i := i + 1;
    }
    assert cs[i..] == [];
    assert FirstChats(cs[i..], seen) == [];
    assert chats == f;
    return Ok(chats);
  }

  /** One step of the loop, in terms of the trimmed title. */
  lemma TitleStep(titles: seq<string>, i: nat, seen: set<string>)
    requires i < |titles|
    ensures var cs := Summaries(titles); var title := Trim(titles[i]);
      FirstChats(cs[i..], seen) ==
        if title == [] || title in seen then FirstChats(cs[i + 1..], seen)
        else [Summary(title)] + FirstChats(cs[i + 1..], seen + {title})
  {
    var cs := Summaries(titles);
    FirstChatsStep(cs, i, seen);
    TrimIdempotent(Rust, titles[i]);
  }

  lemma {:induction false} FirstIndexOfIsFirst(cs: seq<ChatSummary>, id: string)
    ensures forall j :: 0 <= j < FirstIndexOf(cs, id) ==> cs[j].chatId != id
  {
    if cs != [] && cs[0].chatId != id {
      FirstIndexOfIsFirst(cs[1..], id);
      assert forall j :: 1 <= j < |cs| ==> cs[j] == cs[1..][j - 1];
    }
  }

  /** Ids are non-blank, outside `seen` and pairwise distinct. */
  predicate SoundIds(r: seq<ChatSummary>, seen: set<string>) {
    && (forall k :: 0 <= k < |r| ==> !IsBlank(r[k].chatId) && r[k].chatId !in seen)
    && (forall j, k :: 0 <= j < k < |r| ==> r[j].chatId != r[k].chatId)
  }

  /** Each chat is the first one of `cs` with its id, in the order of `cs`. */
  predicate FirstOccurrences(r: seq<ChatSummary>, cs: seq<ChatSummary>) {
    && (forall k :: 0 <= k < |r| ==> FirstIndexOf(cs, r[k].chatId) < |cs| && r[k] == cs[FirstIndexOf(cs, r[k].chatId)])
    && (forall j, k :: 0 <= j < k < |r| ==> FirstIndexOf(cs, r[j].chatId) < FirstIndexOf(cs, r[k].chatId))
  }

  lemma {:induction false} FirstChatsSound(cs: seq<ChatSummary>, seen: set<string>)
    ensures SoundIds(FirstChats(cs, seen), seen)
    ensures |FirstChats(cs, seen)| <= |cs|
  {
    if cs != [] {
      var id := cs[0].chatId;
      if IsBlank(id) || id in seen {
        FirstChatsSound(cs[1..], seen);
      } else {
        FirstChatsSound(cs[1..], seen + {id});
        ConsSound(cs[0], FirstChats(cs[1..], seen + {id}), seen);
      }
    }
  }

  /** A fresh, non-blank chat in front of chats sound for `seen` plus its id. */
  lemma ConsSound(c: ChatSummary, tail: seq<ChatSummary>, seen: set<string>)
    requires !IsBlank(c.chatId) && c.chatId !in seen
    requires SoundIds(tail, seen + {c.chatId})
    ensures SoundIds([c] + tail, seen)
  {
    var r := [c] + tail;
    forall k | 0 <= k < |r| ensures !IsBlank(r[k].chatId) && r[k].chatId !in seen {
      if k > 0 { assert r[k] == tail[k - 1]; }
    }
    forall j, k | 0 <= j < k < |r| ensures r[j].chatId != r[k].chatId {
      assert r[k] == tail[k - 1];
      if j > 0 { assert r[j] == tail[j - 1]; }
    }
  }

  lemma ShiftOccurrences(cs: seq<ChatSummary>, tail: seq<ChatSummary>)
    requires cs != [] && FirstOccurrences(tail, cs[1..])
    requires forall k :: 0 <= k < |tail| ==> tail[k].chatId != cs[0].chatId
    ensures FirstOccurrences(tail, cs)
    ensures forall k :: 0 <= k < |tail| ==> FirstIndexOf(cs, tail[k].chatId) > 0
  {
    forall k | 0 <= k < |tail|
      ensures FirstIndexOf(cs, tail[k].chatId) == 1 + FirstIndexOf(cs[1..], tail[k].chatId)
      ensures cs[FirstIndexOf(cs, tail[k].chatId)] == cs[1..][FirstIndexOf(cs[1..], tail[k].chatId)]
    {
    }
  }

  lemma ConsOccurrence(cs: seq<ChatSummary>, tail: seq<ChatSummary>)
    requires cs != [] && FirstOccurrences(tail, cs)
    requires forall k :: 0 <= k < |tail| ==> FirstIndexOf(cs, tail[k].chatId) > 0
    ensures FirstOccurrences([cs[0]] + tail, cs)
  {
    ConsAtFirstIndex(cs, tail);
    ConsInOrder(cs, tail);
  }

  lemma ConsAtFirstIndex(cs: seq<ChatSummary>, tail: seq<ChatSummary>)
    requires cs != [] && FirstOccurrences(tail, cs)
    ensures var r := [cs[0]] + tail;
      forall k :: 0 <= k < |r| ==> FirstIndexOf(cs, r[k].chatId) < |cs| && r[k] == cs[FirstIndexOf(cs, r[k].chatId)]
  {
    var r := [cs[0]] + tail;
    assert FirstIndexOf(cs, cs[0].chatId) == 0;
    forall k | 0 <= k < |r|
      ensures FirstIndexOf(cs, r[k].chatId) < |cs| && r[k] == cs[FirstIndexOf(cs, r[k].chatId)]
    {
      if k > 0 {
        assert r[k] == tail[k - 1];
      }
    }
  }

  lemma ConsInOrder(cs: seq<ChatSummary>, tail: seq<ChatSummary>)
    requires cs != [] && FirstOccurrences(tail, cs)
    requires forall k :: 0 <= k < |tail| ==> FirstIndexOf(cs, tail[k].chatId) > 0
    ensures var r := [cs[0]] + tail;
      forall j, k :: 0 <= j < k < |r| ==> FirstIndexOf(cs, r[j].chatId) < FirstIndexOf(cs, r[k].chatId)
  {
    var r := [cs[0]] + tail;
    assert FirstIndexOf(cs, cs[0].chatId) == 0;
    forall j, k | 0 <= j < k < |r| ensures FirstIndexOf(cs, r[j].chatId) < FirstIndexOf(cs, r[k].chatId) {
      assert r[k] == tail[k - 1];
      if j > 0 {
        assert r[j] == tail[j - 1];
      }
    }
  }

  lemma {:induction false} FirstChatsFirstOccurrence(cs: seq<ChatSummary>, seen: set<string>)
    ensures FirstOccurrences(FirstChats(cs, seen), cs)
  {
    if cs != [] {
      var id := cs[0].chatId;
      if IsBlank(id) || id in seen {
        FirstChatsFirstOccurrence(cs[1..], seen);
        FirstChatsSound(cs[1..], seen);
        ShiftOccurrences(cs, FirstChats(cs[1..], seen));
      } else {
        var tail := FirstChats(cs[1..], seen + {id});
        FirstChatsFirstOccurrence(cs[1..], seen + {id});
        FirstChatsSound(cs[1..], seen + {id});
        assert forall k :: 0 <= k < |tail| ==> tail[k].chatId !in seen + {id};
        ShiftOccurrences(cs, tail);
        ConsOccurrence(cs, tail);
      }
    }
  }

  /** Nothing eligible is lost: every non-blank, unseen id is in the output. */
  lemma {:induction false} FirstChatsComplete(cs: seq<ChatSummary>, seen: set<string>)
    ensures forall i :: 0 <= i < |cs| && !IsBlank(cs[i].chatId) && cs[i].chatId !in seen ==>
      cs[i].chatId in Ids(FirstChats(cs, seen))
  {
    if cs != [] {
      var id := cs[0].chatId;
      assert forall i :: 1 <= i < |cs| ==> cs[i] == cs[1..][i - 1];
      if IsBlank(id) || id in seen {
        FirstChatsComplete(cs[1..], seen);
      } else {
        FirstChatsComplete(cs[1..], seen + {id});
        assert Ids(FirstChats(cs, seen)) == [id] + Ids(FirstChats(cs[1..], seen + {id}));
      }
    }
  }

  /** The properties of the filter: no blank and no repeated id, each chat the
      first with its id in input order, none lost, never longer than the input. */
  lemma FirstChatsProperties(cs: seq<ChatSummary>)
    ensures var r := FirstChats(cs, {});
      && |r| <= |cs|
      && (forall k :: 0 <= k < |r| ==> !IsBlank(r[k].chatId))
      && (forall j, k :: 0 <= j < k < |r| ==> r[j].chatId != r[k].chatId)
      && FirstOccurrences(r, cs)
      && (forall i :: 0 <= i < |cs| && !IsBlank(cs[i].chatId) ==> cs[i].chatId in Ids(r))
  {
    FirstChatsSound(cs, {});
    FirstChatsFirstOccurrence(cs, {});
    FirstChatsComplete(cs, {});
  }

  /** The recent chats: each has its trimmed, non-blank title as both id and
      title and an unknown kind; no title twice; the first occurrence of each
      title, in order; every non-blank title present; never more than the titles. */
  lemma RecentChatsProperties(titles: seq<string>)
    ensures var r := RecentChats(titles);
      && |r| <= |titles|
      && (forall k :: 0 <= k < |r| ==>
            r[k].chatId == r[k].chatTitle && r[k].kind == UnknownKind && r[k].chatId != [] && Trim(r[k].chatId) == r[k].chatId)
      && (forall j, k :: 0 <= j < k < |r| ==> r[j].chatId != r[k].chatId)
      && FirstOccurrences(r, Summaries(titles))
      && (forall i :: 0 <= i < |titles| && Trim(titles[i]) != [] ==> Trim(titles[i]) in Ids(r))
  {
    var cs := Summaries(titles);
    FirstChatsProperties(cs);
    var r := RecentChats(titles);
    forall k | 0 <= k < |r|
      ensures r[k].chatId == r[k].chatTitle && r[k].kind == UnknownKind && r[k].chatId != [] && Trim(r[k].chatId) == r[k].chatId
    {
      var i := FirstIndexOf(cs, r[k].chatId);
      TrimIdempotent(Rust, titles[i]);
    }
    forall i | 0 <= i < |titles| && Trim(titles[i]) != [] ensures Trim(titles[i]) in Ids(r) {
      TrimIdempotent(Rust, titles[i]);
      assert cs[i].chatId == Trim(titles[i]);
    }
  }

  /** "A", "A", "B" gives two chats. */
  lemma DuplicateTitlesExample()
    ensures RecentChats(["A", "A", "B"]) == [Summary("A"), Summary("B")]
  {
    assert !IsSpace(Rust, 'A') && !IsSpace(Rust, 'B');
    TrimFixesUntrimmed(Rust, "A");
    TrimFixesUntrimmed(Rust, "B");
    var cs := Summaries(["A", "A", "B"]);
    assert cs == [Summary("A"), Summary("A"), Summary("B")];
    assert !IsBlank("A") && !IsBlank("B");
    assert cs[1..][1..][1..] == [];
    assert FirstChats(cs[1..][1..], {"A"}) == [Summary("B")] + FirstChats(cs[1..][1..][1..], {"A", "B"});
    assert FirstChats(cs[1..], {"A"}) == FirstChats(cs[1..][1..], {"A"});
    assert {} + {"A"} == {"A"};
  }
}
