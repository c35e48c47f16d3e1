/**
 * The bounded conversation of a session projection
 * (packages/acp/src/persistence.ts, `boundConversation` and the load-time bounds;
 * packages/acp/src/session.ts, `appendConversation` and `withConversation`).
 *
 * The source walks backwards over the entries and adds up byte counts.  The reference
 * definition here, `Window`, drops entries from the front until the whole encoded array
 * fits; nothing in it counts bytes incrementally.  Everything holds for every way of
 * serialising an entry, `encode`, including entries that have no JSON form.
 */
module Conversation {
  import opened Options

  type Bytes = seq<bv8>

  type Encoder<!T> = T -> Option<Bytes>

  const MAX_ENTRIES: nat := 256
  const MAX_BYTES: nat := 256 * 1024

  const COMMA: Bytes := [0x2C]
  const OPEN: Bytes := [0x5B]
  const CLOSE: Bytes := [0x5D]
  const NULL: Bytes := [0x6E, 0x75, 0x6C, 0x6C]

  /** How an entry appears inside an array: JSON writes a missing value as null. */
  function Element<T>(encode: Encoder<T>, entry: T): Bytes {
    match encode(entry)
    case Some(bytes) => bytes
    case None => NULL
  }

  function Joined<T>(encode: Encoder<T>, s: seq<T>): Bytes {
    if s == [] then []
    else if |s| == 1 then Element(encode, s[0])
    else Element(encode, s[0]) + COMMA + Joined(encode, s[1..])
  }

  /** `JSON.stringify` of the conversation array, in UTF-8. */
  function JsonArray<T>(encode: Encoder<T>, s: seq<T>): Bytes {
    OPEN + Joined(encode, s) + CLOSE
  }

  /** The bounds a persisted projection must meet to be loaded. */
  predicate Fits<T>(encode: Encoder<T>, s: seq<T>) {
    |s| <= MAX_ENTRIES && |JsonArray(encode, s)| <= MAX_BYTES
  }

  /** The newest entries that meet both bounds. */
  function Window<T>(encode: Encoder<T>, s: seq<T>): (r: seq<T>)
    ensures Fits(encode, r)
    ensures |r| <= |s| && r == s[|s| - |r|..]
    decreases |s|
  {
    if Fits(encode, s) then s
    else
      assert s == [] ==> JsonArray(encode, s) == OPEN + CLOSE;
      Window(encode, s[1..])
  }

  /** Dropping older entries never breaks a bound. */
  lemma {:induction false} SuffixFits<T>(encode: Encoder<T>, s: seq<T>, k: nat)
    requires k <= |s| && Fits(encode, s)
    ensures Fits(encode, s[k..])
    decreases |s|
  {
    if k > 0 {
      assert s == [s[0]] + s[1..];
      SuffixFits(encode, s[1..], k - 1);
      assert s[1..][k - 1..] == s[k..];
    }
  }

  /** A suffix meets the bounds exactly if it is no longer than the window: the window is the longest one. */
  lemma {:induction false} WindowIsLongest<T>(encode: Encoder<T>, s: seq<T>, k: nat)
    requires k <= |s|
    ensures Fits(encode, s[k..]) <==> |s| - k <= |Window(encode, s)|
    decreases |s|
  {
    var w := Window(encode, s);
    if |s| - k <= |w| {
      SuffixFits(encode, w, |w| - (|s| - k));
      assert w[|w| - (|s| - k)..] == s[k..];
    } else if Fits(encode, s[k..]) {
      assert s[0..] == s;
      if k > 0 {
        assert s[1..][k - 1..] == s[k..];
        WindowIsLongest(encode, s[1..], k - 1);
      }
    }
  }

  // ---------------------------------------------------------------------------
  // The loop of the source
  // ---------------------------------------------------------------------------

  function Reversed<T>(s: seq<T>): (r: seq<T>)
    ensures |r| == |s|
  {
    if s == [] then [] else Reversed(s[1..]) + [s[0]]
  }

  lemma {:induction false} ReversedPush<T>(s: seq<T>, e: T)
    ensures Reversed(s + [e]) == [e] + Reversed(s)
  {
    if s == [] {
      assert [e][1..] == [];
    } else {
      assert (s + [e])[1..] == s[1..] + [e];
      ReversedPush(s[1..], e);
    }
  }

  /** An entry without a JSON form that the backward walk reaches. */
  predicate Reaches<T>(encode: Encoder<T>, s: seq<T>, k: nat) {
    k < |s| && encode(s[k]).None? && |s| - k <= MAX_ENTRIES && Fits(encode, s[k + 1..])
  }

  predicate Blocked<T>(encode: Encoder<T>, s: seq<T>) {
    exists k | 0 <= k < |s| :: Reaches(encode, s, k)
  }

  predicate EncodableFrom<T>(encode: Encoder<T>, s: seq<T>, k: nat) {
    forall i | k <= i < |s| :: encode(s[i]).Some?
  }

  /** What one step of the backward walk adds. */
  lemma StepBack<T>(encode: Encoder<T>, s: seq<T>, k: nat, retained: seq<T>)
    requires k < |s| && Reversed(retained) == s[k + 1..]
    ensures |JsonArray(encode, s[k..])|
         == |JsonArray(encode, s[k + 1..])| + |Element(encode, s[k])| + (if retained == [] then 0 else 1)
    ensures Reversed(retained + [s[k]]) == s[k..]
  {
    assert s[k..] == [s[k]] + s[k + 1..];
    ReversedPush(retained, s[k]);
  }

  /** `boundConversation`; `None` is the `TypeError` of an entry that is not a JSON value. */
  method BoundConversation<T>(encode: Encoder<T>, conversation: seq<T>) returns (r: Option<seq<T>>)
    ensures r.None? <==> Blocked(encode, conversation)
    ensures r.Some? ==> r.value == Window(encode, conversation)
    ensures r.Some? ==> forall e | e in r.value :: encode(e).Some?
  {
    var retained: seq<T> := [];
    var bytes := 2;
    var index := |conversation| - 1;
    assert conversation[|conversation|..] == [];
    while index >= 0 && |retained| < MAX_ENTRIES
      invariant -1 <= index < |conversation|
      invariant Reversed(retained) == conversation[index + 1..]
      invariant |retained| <= MAX_ENTRIES
      invariant bytes == |JsonArray(encode, conversation[index + 1..])| <= MAX_BYTES
      invariant EncodableFrom(encode, conversation, index + 1)
    {
      var entry := conversation[index];
      var encoded := encode(entry);
      if encoded.None? {
        assert Reaches(encode, conversation, index);
        return None;
      }
      var addedBytes := |encoded.value| + (if |retained| == 0 then 0 else 1);
      StepBack(encode, conversation, index, retained);
      if bytes + addedBytes > MAX_BYTES {
        break;
      }
      retained := retained + [entry];
      bytes := bytes + addedBytes;
      index := index - 1;
    }
    StopsAtWindow(encode, conversation, index + 1);
    r := Some(Reversed(retained));
  }

  /** The walk stops where the suffix fits and one more entry would not; nothing unencodable was reached. */
  lemma StopsAtWindow<T>(encode: Encoder<T>, s: seq<T>, k: nat)
    requires k <= |s| && Fits(encode, s[k..])
    requires k > 0 ==> !Fits(encode, s[k - 1..]) && (encode(s[k - 1]).Some? || |s| - k == MAX_ENTRIES)
    requires EncodableFrom(encode, s, k)
    ensures s[k..] == Window(encode, s)
    ensures !Blocked(encode, s)
  {
    WindowLength(encode, s, k);
    forall i: nat
      ensures !Reaches(encode, s, i)
    {
      if i + 1 < k {
        NotReached(encode, s, i);
      }
    }
  }

  lemma WindowLength<T>(encode: Encoder<T>, s: seq<T>, k: nat)
    requires k <= |s| && Fits(encode, s[k..])
    requires k > 0 ==> !Fits(encode, s[k - 1..])
    ensures |Window(encode, s)| == |s| - k
  {
    WindowIsLongest(encode, s, k);
    if k > 0 {
      WindowIsLongest(encode, s, k - 1);
    }
  }

  lemma NotReached<T>(encode: Encoder<T>, s: seq<T>, i: nat)
    requires i < |s| && |s| - i - 1 > |Window(encode, s)|
    ensures !Reaches(encode, s, i)
  {
    WindowIsLongest(encode, s, i + 1);
  }

  // ---------------------------------------------------------------------------
  // Bounding as one goes
  // ---------------------------------------------------------------------------

  /** Entries dropped earlier are never missed later; with nothing later, bounding twice is bounding once. */
  lemma {:induction false} AppendAfterBounding<T>(encode: Encoder<T>, s: seq<T>, later: seq<T>)
    ensures Window(encode, Window(encode, s) + later) == Window(encode, s + later)
    decreases |s|
  {
    if !Fits(encode, s) {
      assert (s + later)[1..] == s[1..] + later;
      AppendAfterBounding(encode, s[1..], later);
      if Fits(encode, s + later) {
        PrefixFits(encode, s, later);
        assert false;
      }
    }
  }

  lemma {:induction false} PrefixFits<T>(encode: Encoder<T>, s: seq<T>, later: seq<T>)
    requires s != []
    ensures |JsonArray(encode, s)| <= |JsonArray(encode, s + later)|
    decreases |s|
  {
    if |s| == 1 {
      assert s + later == [s[0]] + later && s == [s[0]] + [];
    } else {
      assert s + later == [s[0]] + (s[1..] + later) && s == [s[0]] + s[1..];
      PrefixFits(encode, s[1..], later);
    }
  }

  /** `appendConversation`, once for every entry. */
  function AppendAll<T>(encode: Encoder<T>, start: seq<T>, entries: seq<T>): seq<T>
    decreases |entries|
  {
    if entries == [] then start
    else AppendAll(encode, Window(encode, start + [entries[0]]), entries[1..])
  }

  lemma Regroup<T>(x: seq<T>, y: seq<T>)
    requires y != []
    ensures x + [y[0]] + y[1..] == x + y
  {
  }

  /** Bounding after every append gives what bounding the full history once gives. */
  lemma {:induction false} AppendingIsBoundingOnce<T>(encode: Encoder<T>, history: seq<T>, entries: seq<T>)
    ensures AppendAll(encode, Window(encode, history), entries) == Window(encode, history + entries)
    decreases |entries|
  {
    if entries == [] {
      assert history + entries == history;
    } else {
      var longer := history + [entries[0]];
      AppendAfterBounding(encode, history, [entries[0]]);
      AppendingIsBoundingOnce(encode, longer, entries[1..]);
      Regroup(history, entries);
    }
  }

  /** The conversation of a session projection, replaced on every append. */
  class Projection<T> {
    const encode: Encoder<T>
    var conversation: seq<T>
    ghost var history: seq<T>

    /** A projection created now, or loaded after the bounds were checked. */
    constructor (encode: Encoder<T>, loaded: seq<T>)
      requires Fits(encode, loaded)
      ensures Valid() && history == loaded && conversation == loaded && this.encode == encode
    {
      this.encode := encode;
      conversation, history := loaded, loaded;
    }

    /** The stored entries are the window of everything ever appended. */
    ghost predicate Valid()
      reads this
    {
      conversation == Window(encode, history)
    }

    /** `appendConversation` */
    method Append(entry: T) returns (ok: bool)
      requires Valid()
      modifies this
      ensures Valid()
      ensures if ok then history == old(history) + [entry] && Fits(encode, conversation)
              else history == old(history) && conversation == old(conversation)
      ensures encode(entry).Some? && (forall e | e in old(conversation) :: encode(e).Some?) ==> ok
    {
      var bounded := BoundConversation(encode, conversation + [entry]);
      if bounded.None? {
        return false;
      }
      AppendAfterBounding(encode, history, [entry]);
      conversation := bounded.value;
      history := history + [entry];
      return true;
    }
  }
}
