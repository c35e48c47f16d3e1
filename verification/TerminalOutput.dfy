/**
 * The bounded output buffer of a managed terminal
 * (packages/acp/src/reverse-rpc.ts, `appendTerminalOutput` and `trimOutput`).
 *
 * Output arrives in chunks of any size.  After every chunk the buffer is cut
 * back to the last `limit` bytes and then forward past any UTF-8 continuation
 * bytes (section 3 of RFC 3629), so that it never begins inside a character.
 * The question is whether the bytes a client reads depend on how the operating
 * system happened to cut the stream; `ChunkingIndependence` answers it exactly.
 */
module TerminalOutput {

  type Bytes = seq<bv8>

  predicate Continuation(b: bv8) {
    b & 0xC0 == 0x80
  }

  /** The bytes of `s` from index `lo` up to `hi` are all continuation bytes. */
  predicate Run(s: Bytes, lo: nat, hi: nat)
    requires hi <= |s|
  {
    forall i | lo <= i < hi :: Continuation(s[i])
  }

  /** The first index from `start` on that does not hold a continuation byte, or the end. */
  function SkipContinuation(s: Bytes, start: nat): (r: nat)
    requires start <= |s|
    ensures start <= r <= |s|
    ensures Run(s, start, r)
    ensures r < |s| ==> !Continuation(s[r])
    decreases |s| - start
  {
    if start < |s| && Continuation(s[start]) then SkipContinuation(s, start + 1) else start
  }

  /** Where the trimmed window of a whole stream begins. */
  function WindowStart(s: Bytes, limit: nat): (r: nat)
    ensures r <= |s|
  {
    if |s| <= limit then 0 else SkipContinuation(s, |s| - limit)
  }

  /** `trimOutput` */
  function Trim(s: Bytes, limit: nat): (r: Bytes)
    ensures |r| <= limit
    ensures r <= s || !(|s| <= limit)
  {
    if limit == 0 then [] else s[WindowStart(s, limit)..]
  }

  datatype Buffer = Buffer(output: Bytes, truncated: bool, released: bool)

  const EMPTY := Buffer([], false, false)

  datatype Event = Chunk(bytes: Bytes) | MarkReleased | Cleared

  /** What one event does to the buffer: a chunk, the `released` mark, the final clearing. */
  function Step(b: Buffer, e: Event, limit: nat): Buffer {
    match e
    case MarkReleased => b.(released := true)
    case Cleared => b.(output := [])
    case Chunk(bytes) =>
      if b.released then b
      else
        var merged := b.output + bytes;
        Buffer(Trim(merged, limit), b.truncated || |merged| > limit, false)
  }

  function After(events: seq<Event>, limit: nat): Buffer {
    if events == [] then EMPTY else Step(After(events[..|events| - 1], limit), events[|events| - 1], limit)
  }

  function Chunks(chunks: seq<Bytes>): (events: seq<Event>)
    ensures |events| == |chunks|
  {
    seq(|chunks|, i requires 0 <= i < |chunks| => Chunk(chunks[i]))
  }

  function Joined(chunks: seq<Bytes>): Bytes {
    if chunks == [] then [] else Joined(chunks[..|chunks| - 1]) + chunks[|chunks| - 1]
  }

  /** The buffer after a stream that arrived in these chunks while the terminal was not released. */
  function Online(chunks: seq<Bytes>, limit: nat): Buffer {
    After(Chunks(chunks), limit)
  }

  class Terminal {
    const limit: nat
    var output: Bytes
    var truncated: bool
    var released: bool

    constructor (limit: nat)
      ensures this.limit == limit && State() == EMPTY
    {
      this.limit := limit;
      output, truncated, released := [], false, false;
    }

    function State(): Buffer
      reads this
    {
      Buffer(output, truncated, released)
    }

    /** `appendTerminalOutput` */
    method Append(chunk: Bytes)
      modifies this
      ensures State() == Step(old(State()), Chunk(chunk), limit)
    {
      if released {
        return;
      }
      var merged := output + chunk;
      if |merged| > limit {
        truncated := true;
      }
      output := TrimOutput(merged, limit);
    }

    /** `releaseTerminal` and `closeAll` set the mark before the cleanup … */
    method MarkReleased()
      modifies this
      ensures State() == Step(old(State()), Event.MarkReleased, limit)
    {
      released := true;
    }

    /** … and drop the bytes after it. */
    method Clear()
      modifies this
      ensures State() == Step(old(State()), Cleared, limit)
    {
      output := [];
    }
  }

  /** `trimOutput`, with its scan. */
  method TrimOutput(output: Bytes, limit: nat) returns (r: Bytes)
    ensures r == Trim(output, limit)
    ensures |r| <= limit
    ensures limit > 0 && |output| > limit && r != [] ==> !Continuation(r[0])
  {
    if limit == 0 {
      return [];
    }
    if |output| <= limit {
      return output;
    }
    var start := |output| - limit;
    while start < |output| && Continuation(output[start])
      invariant |output| - limit <= start <= |output|
      invariant SkipContinuation(output, start) == SkipContinuation(output, |output| - limit)
    {
      start := start + 1;
    }
    return output[start..];
  }

  // ---------------------------------------------------------------------------
  // What holds on every run
  // ---------------------------------------------------------------------------

  /** No run of chunks, release and clearing ever leaves more than `limit` bytes in the buffer. */
  lemma {:induction false} NeverOverLimit(events: seq<Event>, limit: nat)
    ensures |After(events, limit).output| <= limit
  {
    if events != [] {
      NeverOverLimit(events[..|events| - 1], limit);
    }
  }

  /** Once the mark is set, the output is frozen until it is cleared, whatever else still arrives. */
  lemma {:induction false} ReleasedIsFrozen(before: seq<Event>, late: seq<Event>, limit: nat)
    requires After(before, limit).released
    ensures After(before + late, limit)
         == (if Cleared in late then After(before, limit).(output := []) else After(before, limit))
    decreases |late|
  {
    if late == [] {
      assert before + late == before;
    } else {
      var n := |late| - 1;
      ReleasedIsFrozen(before, late[..n], limit);
      assert (before + late)[..|before + late| - 1] == before + late[..n];
      assert late == late[..n] + [late[n]];
    }
  }

  lemma ChunksSnoc(chunks: seq<Bytes>, limit: nat)
    requires chunks != []
    ensures Online(chunks, limit)
         == Step(Online(chunks[..|chunks| - 1], limit), Chunk(chunks[|chunks| - 1]), limit)
  {
    assert Chunks(chunks)[..|chunks| - 1] == Chunks(chunks[..|chunks| - 1]);
  }

  // ---------------------------------------------------------------------------
  // Where the online buffer stands in the stream
  // ---------------------------------------------------------------------------

  /** The buffer was emptied at `a`, inside a run of continuation bytes that then went on. */
  predicate Strayed(s: Bytes, limit: nat, a: nat) {
    && limit < a < |s|
    && |s| - a <= limit
    && Run(s, a - limit, a + 1)
  }

  predicate Standing(s: Bytes, limit: nat, a: nat) {
    && a <= |s| <= a + limit
    && (a == WindowStart(s, limit) || Strayed(s, limit, a))
  }

  /** Skipping does not depend on what comes before the point it starts from … */
  lemma {:induction false} SkipSuffix(s: Bytes, a: nat, start: nat)
    requires a <= start <= |s|
    ensures SkipContinuation(s[a..], start - a) + a == SkipContinuation(s, start)
    decreases |s| - start
  {
    if start < |s| && Continuation(s[start]) {
      SkipSuffix(s, a, start + 1);
    }
  }

  /** … and lands on the first byte that is not a continuation. */
  lemma {:induction false} SkipLands(s: Bytes, start: nat, r: nat)
    requires start <= r <= |s| && Run(s, start, r)
    requires r < |s| ==> !Continuation(s[r])
    ensures SkipContinuation(s, start) == r
    decreases r - start
  {
    if start < r {
      SkipLands(s, start + 1, r);
    }
  }

  lemma AppendKeepsStanding(s: Bytes, c: Bytes, limit: nat, a: nat) returns (b: nat)
    requires limit > 0 && Standing(s, limit, a)
    ensures Standing(s + c, limit, b)
    ensures Trim(s[a..] + c, limit) == (s + c)[b..]
    ensures a == 0 ==> (b == 0 || |s + c| > limit)
  {
    var t := s + c;
    assert s[a..] + c == t[a..];
    assert forall i | 0 <= i < |s| :: t[i] == s[i];
    if |t| - a > limit {
      b := WindowStart(t, limit);
      Retrimmed(t, a, limit);
    } else {
      b := a;
      StayingPut(s, c, limit, a);
      assert WindowStart(t[a..], limit) == 0 && t[a..][0..] == t[a..];
    }
  }

  /** A buffer that has grown past the limit is cut to the window of the whole stream. */
  lemma Retrimmed(t: Bytes, a: nat, limit: nat)
    requires limit > 0 && a + limit < |t|
    ensures Trim(t[a..], limit) == t[WindowStart(t, limit)..]
  {
    var b := WindowStart(t, limit);
    SkipSuffix(t, a, |t| - limit);
    assert t[a..][b - a..] == t[b..];
  }

  /** If the chunk still fits, the buffer keeps its beginning. */
  lemma StayingPut(s: Bytes, c: Bytes, limit: nat, a: nat)
    requires limit > 0 && Standing(s, limit, a) && |s + c| - a <= limit
    ensures Standing(s + c, limit, a)
  {
    var t := s + c;
    assert forall i | 0 <= i < |s| :: t[i] == s[i];
    if Strayed(s, limit, a) {
      assert Strayed(t, limit, a);
    } else if |s| <= limit {
    } else if a == |s| && c != [] && Continuation(c[0]) {
      assert t[a] == c[0];
      assert Strayed(t, limit, a);
    } else {
      assert a < |t| ==> !Continuation(t[a]);
      SkipLands(t, |t| - limit, a);
    }
  }

  /** Every chunking leaves the buffer on the window of the whole stream, or strayed past it. */
  lemma {:induction false} OnlineStands(chunks: seq<Bytes>, limit: nat) returns (a: nat)
    requires limit > 0
    ensures Standing(Joined(chunks), limit, a)
    ensures Online(chunks, limit).output == Joined(chunks)[a..] && !Online(chunks, limit).released
    decreases |chunks|
  {
    if chunks == [] {
      a := 0;
    } else {
      var n := |chunks| - 1;
      var before := OnlineStands(chunks[..n], limit);
      ChunksSnoc(chunks, limit);
      a := AppendKeepsStanding(Joined(chunks[..n]), chunks[n], limit, before);
    }
  }

  lemma {:induction false} OnlineZero(chunks: seq<Bytes>)
    ensures Online(chunks, 0).output == [] && !Online(chunks, 0).released
    decreases |chunks|
  {
    if chunks != [] {
      OnlineZero(chunks[..|chunks| - 1]);
      ChunksSnoc(chunks, 0);
    }
  }

  /** `truncated` says exactly that more bytes were received than the limit allows, however they were cut. */
  lemma {:induction false} TruncatedIffOverLimit(chunks: seq<Bytes>, limit: nat)
    ensures Online(chunks, limit).truncated <==> |Joined(chunks)| > limit
    ensures !Online(chunks, limit).truncated ==> Online(chunks, limit).output == Joined(chunks)
    decreases |chunks|
  {
    if chunks != [] {
      var n := |chunks| - 1;
      TruncatedIffOverLimit(chunks[..n], limit);
      ChunksSnoc(chunks, limit);
      if limit == 0 {
        OnlineZero(chunks[..n]);
      } else {
        var a := OnlineStands(chunks[..n], limit);
      }
    }
  }

  // ---------------------------------------------------------------------------
  // Chunking independence
  // ---------------------------------------------------------------------------

  /** Whether this stream has a place where a cut would show. */
  predicate CutShows(s: Bytes, limit: nat) {
    exists p | 0 <= p < |s| :: Strayed(s, limit, p)
  }

  ghost predicate Independent(s: Bytes, limit: nat) {
    forall chunks: seq<Bytes> | Joined(chunks) == s :: Online(chunks, limit).output == Trim(s, limit)
  }

  lemma JoinedTwo(x: Bytes, y: Bytes)
    ensures Joined([x, y]) == x + y
  {
    assert [x, y][..1] == [x] && [x][..0] == [];
    assert Joined([x]) == Joined([]) + x;
  }

  lemma OnlineTwo(x: Bytes, y: Bytes, limit: nat)
    ensures Online([x, y], limit).output == Trim(Trim(x, limit) + y, limit)
  {
    ChunksSnoc([x, y], limit);
    assert [x, y][..1] == [x] && [x][..0] == [];
    ChunksSnoc([x], limit);
    assert Online([], limit) == EMPTY;
    assert [] + x == x;
  }

  /** A cut at such a place is seen: the second piece survives although its first byte is a continuation. */
  lemma CutIsSeen(s: Bytes, limit: nat, p: nat) returns (chunks: seq<Bytes>)
    requires limit > 0 && Strayed(s, limit, p)
    ensures chunks == [s[..p], s[p..]] && Joined(chunks) == s
    ensures Online(chunks, limit).output == s[p..] != Trim(s, limit)
  {
    var x, y := s[..p], s[p..];
    chunks := [x, y];
    JoinedTwo(x, y);
    OnlineTwo(x, y, limit);
    assert x + y == s && [] + y == y;
  }

  lemma Dependent(s: Bytes, limit: nat, p: nat)
    requires limit > 0 && Strayed(s, limit, p)
    ensures !Independent(s, limit)
  {
    var chunks := CutIsSeen(s, limit, p);
  }

  lemma CutIsUnseen(chunks: seq<Bytes>, s: Bytes, limit: nat)
    requires Joined(chunks) == s
    requires limit == 0 || !CutShows(s, limit)
    ensures Online(chunks, limit).output == Trim(s, limit)
  {
    if limit == 0 {
      OnlineZero(chunks);
    } else {
      var a := OnlineStands(chunks, limit);
    }
  }

  /**
   * What is kept is the trimmed whole stream for every way of cutting it, if and only if
   * the stream has no run of more than `limit` continuation bytes reaching into its last
   * `limit` bytes (and always when the limit is zero).
   */
  lemma ChunkingIndependence(s: Bytes, limit: nat)
    ensures Independent(s, limit) <==> limit == 0 || !CutShows(s, limit)
  {
    if limit > 0 && CutShows(s, limit) {
      var p: nat :| p < |s| && Strayed(s, limit, p);
      Dependent(s, limit, p);
    } else {
      forall chunks: seq<Bytes> | Joined(chunks) == s
        ensures Online(chunks, limit).output == Trim(s, limit)
      {
        CutIsUnseen(chunks, s, limit);
      }
    }
  }

  /** A stream in which every character has at most three continuation bytes, as RFC 3629 prescribes. */
  predicate ShortRuns(s: Bytes) {
    forall p, q | 0 <= p <= q <= |s| && Run(s, p, q) :: q - p <= 3
  }

  /** So for UTF-8 output and a limit of three bytes or more, chunk boundaries never show. */
  lemma Utf8Independence(s: Bytes, limit: nat)
    requires ShortRuns(s) && limit >= 3
    ensures Independent(s, limit)
  {
    forall p | 0 <= p < |s|
      ensures !Strayed(s, limit, p)
    {
      if Strayed(s, limit, p) {
        assert false;
      }
    }
    ChunkingIndependence(s, limit);
  }

  /** A limit of two bytes is not enough: a four-byte character delivered byte by byte leaves a fragment. */
  lemma CutFourByteCharacter()
    ensures Trim([0xF0, 0x9F, 0x98, 0x80], 2) == []
    ensures Online([[0xF0, 0x9F, 0x98], [0x80]], 2).output == [0x80]
  {
    var s: Bytes := [0xF0, 0x9F, 0x98, 0x80];
    assert s[..3] == [0xF0, 0x9F, 0x98] && s[3..] == [0x80];
    var chunks := CutIsSeen(s, 2, 3);
    assert chunks == [[0xF0, 0x9F, 0x98], [0x80]];
    SkipLands(s, 2, 4);
  }

  // ---------------------------------------------------------------------------
  // Output that consists of characters
  // ---------------------------------------------------------------------------

  predicate Tail(b: bv8) {
    0x80 <= b <= 0xBF
  }

  /** A character as section 4 of RFC 3629 spells it. */
  predicate Character(c: Bytes) {
    || (|c| == 1 && c[0] <= 0x7F)
    || (|c| == 2 && 0xC2 <= c[0] <= 0xDF && Tail(c[1]))
    || (|c| == 3 && Tail(c[2]) &&
        (|| (c[0] == 0xE0 && 0xA0 <= c[1] <= 0xBF) || (0xE1 <= c[0] <= 0xEC && Tail(c[1]))
         || (c[0] == 0xED && 0x80 <= c[1] <= 0x9F) || (0xEE <= c[0] <= 0xEF && Tail(c[1]))))
    || (|c| == 4 && Tail(c[2]) && Tail(c[3]) &&
        (|| (c[0] == 0xF0 && 0x90 <= c[1] <= 0xBF) || (0xF1 <= c[0] <= 0xF3 && Tail(c[1]))
         || (c[0] == 0xF4 && 0x80 <= c[1] <= 0x8F)))
  }

  predicate Text(chars: seq<Bytes>) {
    forall c | c in chars :: Character(c)
  }

  lemma ContinuationIsTail(b: bv8)
    ensures Continuation(b) <==> Tail(b)
  {
  }

  lemma CharacterBytes(c: Bytes)
    requires Character(c)
    ensures 1 <= |c| <= 4 && forall i | 0 <= i < |c| :: Continuation(c[i]) <==> i > 0
  {
    forall i | 0 <= i < |c| ensures Continuation(c[i]) <==> i > 0 {
      ContinuationIsTail(c[i]);
    }
  }

  lemma {:induction false} JoinedSplit(chars: seq<Bytes>, k: nat)
    requires k <= |chars|
    ensures Joined(chars) == Joined(chars[..k]) + Joined(chars[k..])
    decreases |chars|
  {
    if k == |chars| {
      assert chars[..k] == chars;
    } else {
      var n := |chars| - 1;
      JoinedSplit(chars[..n], k);
      assert chars[..n][..k] == chars[..k] && chars[..n][k..] == chars[k..][..n - k];
    }
  }

  /** Where the character after the first `k` begins. */
  function Begins(chars: seq<Bytes>, k: nat): nat
    requires k <= |chars|
  {
    |Joined(chars[..k])|
  }

  /** Byte `i` of character `k` in the stream. */
  lemma ByteOf(chars: seq<Bytes>, k: nat, i: nat)
    requires k < |chars| && i < |chars[k]|
    ensures Begins(chars, k + 1) == Begins(chars, k) + |chars[k]| <= |Joined(chars)|
    ensures Joined(chars)[Begins(chars, k) + i] == chars[k][i]
  {
    assert chars[..k + 1][..k] == chars[..k];
    JoinedSplit(chars, k + 1);
  }

  /** The first character to begin at `start` or later; only continuation bytes are skipped on the way to it. */
  lemma {:induction false} NextCharacter(chars: seq<Bytes>, start: nat, n: nat) returns (k: nat)
    requires Text(chars) && n <= |chars| && start <= Begins(chars, n)
    ensures k <= n && start <= Begins(chars, k) <= |Joined(chars)| && Run(Joined(chars), start, Begins(chars, k))
    ensures k > 0 ==> Begins(chars, k - 1) < start <= Begins(chars, k) <= Begins(chars, k - 1) + 4
    decreases n
  {
    JoinedSplit(chars, n);
    if n == 0 {
      k := 0;
    } else if start <= Begins(chars, n - 1) {
      k := NextCharacter(chars, start, n - 1);
    } else {
      k := n;
      assert chars[n - 1] in chars;
      CharacterBytes(chars[n - 1]);
      ByteOf(chars, n - 1, 0);
      var base := Begins(chars, n - 1);
      forall i | start <= i < Begins(chars, n) ensures Continuation(Joined(chars)[i]) {
        ByteOf(chars, n - 1, i - base);
      }
    }
  }

  /** A character does not begin with a continuation byte. */
  lemma BeginsAfresh(chars: seq<Bytes>, k: nat)
    requires Text(chars) && k < |chars|
    ensures Begins(chars, k) < |Joined(chars)| && !Continuation(Joined(chars)[Begins(chars, k)])
  {
    assert chars[k] in chars;
    CharacterBytes(chars[k]);
    ByteOf(chars, k, 0);
  }

  lemma TextHasShortRuns(chars: seq<Bytes>)
    requires Text(chars)
    ensures ShortRuns(Joined(chars))
  {
    var s := Joined(chars);
    assert chars[..|chars|] == chars;
    forall p, q | 0 <= p <= q <= |s| && Run(s, p, q) ensures q - p <= 3 {
      var k := NextCharacter(chars, p, |chars|);
      if k < |chars| {
        BeginsAfresh(chars, k);
      }
    }
  }

  /** What trimming keeps of a text is whole characters, and as many as the limit has room for. */
  lemma TrimKeepsCharacters(chars: seq<Bytes>, limit: nat) returns (k: nat)
    requires Text(chars)
    ensures k <= |chars| && Trim(Joined(chars), limit) == Joined(chars[k..])
    ensures k > 0 ==> |Joined(chars[k - 1..])| > limit
  {
    var s := Joined(chars);
    assert chars[..|chars|] == chars && chars[..0] == [];
    if |s| <= limit {
      k := 0;
      assert chars[0..] == chars;
    } else {
      k := NextCharacter(chars, |s| - limit, |chars|);
      if k < |chars| {
        BeginsAfresh(chars, k);
      }
      SkipLands(s, |s| - limit, Begins(chars, k));
      JoinedSplit(chars, k);
      if k > 0 {
        JoinedSplit(chars, k - 1);
      }
    }
  }

  /** However a text arrives, with a limit of three bytes or more the buffer holds the longest of its suffixes
      of whole characters that fits. */
  lemma TextIsNeverCut(chars: seq<Bytes>, chunks: seq<Bytes>, limit: nat) returns (k: nat)
    requires Text(chars) && Joined(chunks) == Joined(chars) && limit >= 3
    ensures k <= |chars| && Online(chunks, limit).output == Joined(chars[k..])
    ensures k > 0 ==> |Joined(chars[k - 1..])| > limit
  {
    TextHasShortRuns(chars);
    Utf8Independence(Joined(chars), limit);
    k := TrimKeepsCharacters(chars, limit);
  }
}
