/**
 * utils/streamingEngine.js: the stream segmenter that turns the generation
 * provider's incremental events into speakable chunks, the history commit
 * that follows the stream, and the sticky-domain keyword detector.
 *
 * The provider stream is a sequence of events: a text delta, or the function
 * calls carried by one provider chunk. The segmenter's state after a prefix
 * of the stream is `Run(prefix)`; the method `Segment` is the source's loop,
 * proved to compute `Run`, and the lemmas below state what `Run` promises.
 */
module StreamingEngine {
  import opened Optional
  import opened JsString
  import opened Conversation
  import opened SessionManager
  import Retriever

  // ---------------------------------------------------------------------
  // The provider-internal gender tag, /\[GENDER:.*?\]/gi
  // ---------------------------------------------------------------------

  /** The opening of a gender tag, as the case-sensitive test /\[GENDER:/ looks for it. */
  const TagOpen: string := "[GENDER:"

  /** One character of a case-insensitive pattern: ASCII letters match either case. */
  predicate CiEq(c: char, p: char) {
    c == p || ('A' <= p <= 'Z' && c as int == p as int + 32)
  }

  /** `s` begins with `pat` when letters are compared without case. */
  predicate CiPrefix(s: string, pat: string) {
    |pat| <= |s| && forall k :: 0 <= k < |pat| ==> CiEq(s[k], pat[k])
  }

  /** The first `]` at or after `j`, provided no line terminator comes before it: where `.*?\]` stops. */
  function CloseFrom(s: string, j: nat): (r: Option<nat>)
    requires j <= |s|
    decreases |s| - j
    ensures r.Some? ==> j <= r.value < |s| && s[r.value] == ']'
    ensures r.Some? ==> forall k :: j <= k < r.value ==> s[k] != ']' && !IsLineTerminator(s[k])
  {
    if j == |s| then None
    else if s[j] == ']' then Some(j)
    else if IsLineTerminator(s[j]) then None
    else CloseFrom(s, j + 1)
  }

  /** The length of the gender tag that starts `s`, if one does. */
  function TagAt(s: string): (r: Option<nat>)
    ensures r.Some? ==> |TagOpen| < r.value <= |s| && s[r.value - 1] == ']'
  {
    if CiPrefix(s, TagOpen) then
      match CloseFrom(s, |TagOpen|)
      case Some(k) => Some(k + 1)
      case None => None
    else None
  }

  /** No gender tag starts anywhere in `s`. */
  predicate NoTag(s: string) {
    forall i :: 0 <= i <= |s| ==> TagAt(s[i..]).None?
  }

  /** `s.replace(/\[GENDER:.*?\]/gi, '')`: one left-to-right pass removing each tag it meets. */
  function StripTags(s: string): (r: string)
    decreases |s|
    ensures |r| <= |s|
    ensures forall c :: c in r ==> c in s
  {
    if s == [] then []
    else match TagAt(s)
      case Some(n) =>
        assert forall c :: c in s[n..] ==> c in s;
        StripTags(s[n..])
      case None =>
        assert forall c :: c in s[1..] ==> c in s;
        [s[0]] + StripTags(s[1..])
  }

  /** A string with no tag is left as it is. */
  lemma {:induction false} StripTagsNoTag(s: string)
    requires NoTag(s)
    ensures StripTags(s) == s
  {
    if s != [] {
      assert s[0..] == s;
      assert TagAt(s).None?;
      forall i | 0 <= i <= |s[1..]| ensures TagAt(s[1..][i..]).None? {
        assert s[1..][i..] == s[i + 1..];
      }
      StripTagsNoTag(s[1..]);
    }
  }

  /** If a tag starts anywhere in `s`, the pass removes something. */
  lemma {:induction false} StripTagsShrinks(s: string, i: nat)
    requires i <= |s| && TagAt(s[i..]).Some?
    ensures |StripTags(s)| < |s|
  {
    if s == [] {
    } else if TagAt(s).Some? {
    } else {
      assert i != 0 by { assert s[0..] == s; }
      assert s[1..][i - 1..] == s[i..];
      StripTagsShrinks(s[1..], i - 1);
    }
  }

  /** A string too short to hold "[GENDER:" has no tag. */
  lemma ShortNoTag(s: string)
    requires |s| < |TagOpen|
    ensures NoTag(s)
  {
    forall i | 0 <= i <= |s| ensures TagAt(s[i..]).None? {
      assert |s[i..]| < |TagOpen|;
    }
  }

  /** A string that does not start with `[` does not start a tag. */
  lemma NoTagStart(s: string)
    requires s != [] && s[0] != '['
    ensures TagAt(s).None?
  {
    assert !CiEq(s[0], TagOpen[0]);
  }

  /** Characters that cannot start a tag pass through the single pass unchanged. */
  lemma {:induction false} StripKeepsPrefix(p: string, x: string)
    requires forall i :: 0 <= i < |p| ==> TagAt((p + x)[i..]).None?
    ensures StripTags(p + x) == p + StripTags(x)
  {
    if p != [] {
      assert (p + x)[0..] == p + x;
      assert (p + x)[1..] == p[1..] + x;
      forall i | 0 <= i < |p[1..]| ensures TagAt((p[1..] + x)[i..]).None? {
        assert (p[1..] + x)[i..] == (p + x)[i + 1..];
      }
      StripKeepsPrefix(p[1..], x);
      assert StripTags(p + x) == [p[0]] + StripTags(p[1..] + x);
      assert [p[0]] + p[1..] == p;
    } else {
      assert p + x == x;
    }
  }

  const TagJoiner: string := "[GEN[GENDER:]DER:]"

  /** The first four characters of `TagJoiner` start no tag and pass through. */
  lemma TagJoinerHead()
    ensures StripTags(TagJoiner) == TagJoiner[..4] + StripTags(TagJoiner[4..])
  {
    var s := TagJoiner;
    var p, y := s[..4], s[4..];
    assert s == p + y;
    forall i | 0 <= i < |p| ensures TagAt((p + y)[i..]).None? {
      if i > 0 {
        NoTagStart(s[i..]);
      } else {
        assert s[0..] == s;
        assert !CiEq(s[4], TagOpen[4]);
      }
    }
    StripKeepsPrefix(p, y);
  }

  /** The inner "[GENDER:]" of `TagJoiner` is removed and the rest is too short to hold a tag. */
  lemma TagJoinerTail()
    ensures StripTags(TagJoiner[4..]) == TagJoiner[13..]
  {
    var y := TagJoiner[4..];
    var x := TagJoiner[13..];
    assert CiPrefix(y, TagOpen);
    assert CloseFrom(y, 8) == Some(8);
    assert TagAt(y) == Some(9);
    assert y[9..] == x;
    ShortNoTag(x);
    StripTagsNoTag(x);
  }

  /**
   * The single pass can leave a tag behind: removing an inner tag joins the
   * text around it into a new one. "[GEN[GENDER:]DER:]" strips to
   * "[GENDER:]", which is itself a tag.
   */
  lemma StripTagsCanLeaveTag()
    ensures StripTags(TagJoiner) == "[GENDER:]"
    ensures !NoTag(StripTags(TagJoiner))
  {
    TagJoinerHead();
    TagJoinerTail();
    var r := StripTags(TagJoiner);
    assert r == "[GENDER:]";
    assert CiPrefix(r, TagOpen);
    assert CloseFrom(r, 8) == Some(8);
    assert r[0..] == r;
  }

  /** The pass removes nothing only when it changes nothing. */
  lemma {:induction false} StripTagsSameLength(s: string)
    requires |StripTags(s)| == |s|
    ensures StripTags(s) == s
  {
    if s != [] {
      match TagAt(s)
      case Some(n) =>
      case None => StripTagsSameLength(s[1..]);
    }
  }

  /** Repeats the pass until nothing changes: the stripping the segmenter evidently intends. */
  function StripTagsFully(s: string): (r: string)
    decreases |s|
    ensures NoTag(r)
  {
    var t := StripTags(s);
    if t == s then
      assert NoTag(s) by {
        forall i | 0 <= i <= |s| ensures TagAt(s[i..]).None? {
          if TagAt(s[i..]).Some? {
            StripTagsShrinks(s, i);
          }
        }
      }
      s
    else
      assert |t| < |s| by {
        if |t| == |s| { StripTagsSameLength(s); }
      }
      StripTagsFully(t)
  }

  /** Stripping fully changes nothing in a tag-free string. */
  lemma StripTagsFullyNoTag(s: string)
    requires NoTag(s)
    ensures StripTagsFully(s) == s
  {
    StripTagsNoTag(s);
  }

  // ---------------------------------------------------------------------
  // Chunking
  // ---------------------------------------------------------------------

  /** The marks of /[,\.\?!;\n]/ that end a chunk. */
  predicate IsMark(c: char) {
    c == ',' || c == '.' || c == '?' || c == '!' || c == ';' || c == '\n'
  }

  /** `buffer.match(/[,\.\?!;\n]/).index`. */
  function FirstMark(s: string, i: nat): (r: Option<nat>)
    requires i <= |s|
    decreases |s| - i
    ensures r.Some? ==> i <= r.value < |s| && IsMark(s[r.value])
    ensures r.Some? ==> forall j :: i <= j < r.value ==> !IsMark(s[j])
    ensures r.None? ==> forall j :: i <= j < |s| ==> !IsMark(s[j])
  {
    if i == |s| then None
    else if IsMark(s[i]) then Some(i)
    else FirstMark(s, i + 1)
  }

  /** The number of words above which an unpunctuated buffer is flushed: `split(' ').length > 6`. */
  const MaxWords: nat := 6

  /** One chunk of the provider's stream. */
  datatype StreamEvent =
    | Text(text: string)                 // `chunk.text()`, '' when it throws
    | Calls(calls: seq<FunctionCall>)    // `chunk.functionCalls()`

  /**
   * The loop variables `fullText`, `wordBuffer` and `functionCalls`, with the
   * raw buffer contents handed to `sendSafe` so far.
   */
  datatype SegState = SegState(fullText: string, buffer: string, calls: seq<FunctionCall>, pieces: seq<string>)

  const Start: SegState := SegState("", "", [], [])

  /**
   * One iteration of the `for await` loop: it flushes at most one piece and
   * keeps the earlier ones; a function-call event touches no text.
   */
  function Step(st: SegState, e: StreamEvent): (r: SegState)
    ensures |st.pieces| <= |r.pieces| <= |st.pieces| + 1 && r.pieces[..|st.pieces|] == st.pieces
    ensures e.Calls? ==> r.fullText == st.fullText && r.buffer == st.buffer && r.pieces == st.pieces
    ensures r.calls == st.calls + (if e.Calls? then e.calls else [])
  {
    match e
    case Calls(cs) => st.(calls := st.calls + cs)
    case Text(t) =>
      if t == [] then st
      else if Includes(t, TagOpen) then Feed(st.(fullText := st.fullText + t), Spoken(e))
      else Feed(st, Spoken(e))
  }

  /**
   * The tail of an iteration, once the text is known: it is appended to
   * `fullText` and to the buffer, and the buffer is flushed up to its first
   * mark, or whole when it holds more than six words.
   */
  function Feed(st: SegState, text: string): (r: SegState)
    ensures text == [] ==> r == st
    ensures text != [] ==> r.fullText == st.fullText + text
    ensures r.calls == st.calls
    ensures |st.pieces| <= |r.pieces| <= |st.pieces| + 1 && r.pieces[..|st.pieces|] == st.pieces
  {
    if text == [] then st
    else
      var buf := st.buffer + text;
      match FirstMark(buf, 0)
      case Some(k) => SegState(st.fullText + text, buf[k + 1..], st.calls, st.pieces + [buf[..k + 1]])
      case None =>
        if ManyWords(buf) then SegState(st.fullText + text, [], st.calls, st.pieces + [buf])
        else SegState(st.fullText + text, buf, st.calls, st.pieces)
  }

  /** `buffer.split(' ').length > 6`. */
  predicate ManyWords(buf: string) {
    |Split(buf, ' ')| > MaxWords
  }

  /** The loop state after the events of `es`: at most one piece per event. */
  function Run(es: seq<StreamEvent>): (r: SegState)
    decreases |es|
    ensures |r.pieces| <= |es|
  {
    if es == [] then Start else Step(Run(es[..|es| - 1]), es[|es| - 1])
  }

  /**
   * Every raw piece the loop flushed, with the leftover flushed after the
   * stream ends: one more piece exactly when the buffer is not empty.
   */
  function Flushed(st: SegState): (r: seq<string>)
    ensures |r| == |st.pieces| + (if st.buffer == [] then 0 else 1)
    ensures r[..|st.pieces|] == st.pieces
    ensures forall k :: |st.pieces| <= k < |r| ==> r[k] == st.buffer && r[k] != []
  {
    if st.buffer != [] then st.pieces + [st.buffer] else st.pieces
  }

  /** `sendSafe`: a piece reaches `onChunk` with tags removed and trimmed, and only when something is left. */
  function SendSafe(piece: string): (out: seq<string>)
    ensures |out| <= 1
    ensures forall c :: c in out ==> c != [] && Trimmed(c) && c == Trim(StripTags(piece))
  {
    var clean := Trim(StripTags(piece));
    if clean != [] then [clean] else []
  }

  /** The chunks `onChunk` receives for a sequence of raw pieces. */
  function Speakable(pieces: seq<string>): (chunks: seq<string>)
    decreases |pieces|
    ensures |chunks| <= |pieces|
    ensures forall c :: c in chunks ==> c != [] && Trimmed(c)
  {
    if pieces == [] then [] else Speakable(pieces[..|pieces| - 1]) + SendSafe(pieces[|pieces| - 1])
  }

  function Concat(ps: seq<string>): string
    decreases |ps|
  {
    if ps == [] then "" else Concat(ps[..|ps| - 1]) + ps[|ps| - 1]
  }

  /**
   * The text an event feeds the word buffer: its text, tags removed when
   * the raw text shows /\[GENDER:/; a function-call event feeds nothing.
   */
  function Spoken(e: StreamEvent): (r: string)
    ensures e.Calls? ==> r == []
    ensures e.Text? ==> |r| <= |e.text| && (forall c :: c in r ==> c in e.text)
    ensures e.Text? && !Includes(e.text, TagOpen) ==> r == e.text
  {
    match e
    case Calls(_) => ""
    case Text(t) => if Includes(t, TagOpen) then StripTags(t) else t
  }

  function SpokenText(es: seq<StreamEvent>): string
    decreases |es|
  {
    if es == [] then "" else SpokenText(es[..|es| - 1]) + Spoken(es[|es| - 1])
  }

  function AllCalls(es: seq<StreamEvent>): seq<FunctionCall>
    decreases |es|
  {
    if es == [] then []
    else AllCalls(es[..|es| - 1]) + (match es[|es| - 1] case Calls(cs) => cs case Text(_) => [])
  }

  /** A flushed piece ends at the first mark of the buffer, or holds no mark and more than six words. */
  predicate PieceShape(p: string) {
    || (p != [] && IsMark(p[|p| - 1]) && forall j :: 0 <= j < |p| - 1 ==> !IsMark(p[j]))
    || ((forall j :: 0 <= j < |p| ==> !IsMark(p[j])) && ManyWords(p))
  }

  lemma ConcatSnoc(ps: seq<string>, p: string)
    ensures Concat(ps + [p]) == Concat(ps) + p
  {
    assert (ps + [p])[..|ps|] == ps;
  }

  /** Feeding a text moves exactly that text into the pieces and the buffer. */
  lemma FeedConserves(st: SegState, text: string)
    ensures Concat(Feed(st, text).pieces) + Feed(st, text).buffer == Concat(st.pieces) + st.buffer + text
  {
    if text != [] {
      var buf := st.buffer + text;
      match FirstMark(buf, 0)
      case Some(k) =>
        ConcatSnoc(st.pieces, buf[..k + 1]);
        assert buf[..k + 1] + buf[k + 1..] == buf;
      case None =>
        if ManyWords(buf) {
          ConcatSnoc(st.pieces, buf);
        }
    }
  }

  /** One event moves exactly its spoken text into the pieces and the buffer. */
  lemma StepConserves(st: SegState, e: StreamEvent)
    ensures Concat(Step(st, e).pieces) + Step(st, e).buffer == Concat(st.pieces) + st.buffer + Spoken(e)
  {
    match e
    case Calls(cs) =>
    case Text(t) =>
      if t != [] {
        if Includes(t, TagOpen) {
          FeedConserves(st.(fullText := st.fullText + t), Spoken(e));
        } else {
          FeedConserves(st, Spoken(e));
        }
      }
  }

  /**
   * Nothing is lost or duplicated: the flushed pieces followed by the
   * buffer spell out exactly the tag-stripped text events, and function-call
   * events contribute no text.
   */
  lemma {:induction false} RunConserves(es: seq<StreamEvent>)
    ensures Concat(Run(es).pieces) + Run(es).buffer == SpokenText(es)
  {
    if es != [] {
      var init := es[..|es| - 1];
      RunConserves(init);
      StepConserves(Run(init), es[|es| - 1]);
    }
  }

  /** Flushing the leftover completes the text: the pieces handed to `sendSafe` concatenate to the spoken text. */
  lemma FlushedConserves(es: seq<StreamEvent>)
    ensures Concat(Flushed(Run(es))) == SpokenText(es)
  {
    RunConserves(es);
    var st := Run(es);
    if st.buffer != [] {
      assert (st.pieces + [st.buffer])[..|st.pieces|] == st.pieces;
    }
  }

  /**
   * Every piece flushed during the stream is either the buffer up to and
   * including its first mark, or a whole mark-free buffer of more than six
   * words.
   */
  lemma {:induction false} RunPieces(es: seq<StreamEvent>)
    ensures forall p :: p in Run(es).pieces ==> PieceShape(p)
  {
    if es != [] {
      var init := es[..|es| - 1];
      RunPieces(init);
      var st := Run(init);
      var e := es[|es| - 1];
      match e
      case Calls(cs) =>
      case Text(t) =>
        if t != [] {
          if Includes(t, TagOpen) {
            FeedPieces(st.(fullText := st.fullText + t), Spoken(e));
          } else {
            FeedPieces(st, Spoken(e));
          }
        }
    }
  }

  /** Feeding a text flushes at most one piece, and that piece has the shape of a flush. */
  lemma FeedPieces(st: SegState, text: string)
    ensures |Feed(st, text).pieces| <= |st.pieces| + 1
    ensures forall p :: p in Feed(st, text).pieces ==> p in st.pieces || PieceShape(p)
  {
    if text != [] {
      var buf := st.buffer + text;
      match FirstMark(buf, 0)
      case Some(k) =>
        assert PieceShape(buf[..k + 1]);
      case None =>
    }
  }

  /**
   * The flush rule of one feed, in both directions: with a mark in the
   * buffer, exactly the text up to and including the first mark is flushed
   * and the rest stays buffered; with none, a piece is flushed exactly when
   * the buffer holds more than six words, and it is then the whole buffer.
   */
  lemma FeedFlushRule(st: SegState, text: string)
    requires text != []
    ensures Feed(st, text).pieces[..|st.pieces|] == st.pieces
    ensures var buf := st.buffer + text; FirstMark(buf, 0).Some? ==>
      && Feed(st, text).pieces == st.pieces + [buf[..FirstMark(buf, 0).value + 1]]
      && Feed(st, text).buffer == buf[FirstMark(buf, 0).value + 1..]
    ensures var buf := st.buffer + text; FirstMark(buf, 0).None? ==>
      (ManyWords(buf) <==> |Feed(st, text).pieces| == |st.pieces| + 1)
    ensures var buf := st.buffer + text; FirstMark(buf, 0).None? && ManyWords(buf) ==>
      Feed(st, text).pieces == st.pieces + [buf] && Feed(st, text).buffer == []
    ensures var buf := st.buffer + text; FirstMark(buf, 0).None? && !ManyWords(buf) ==>
      Feed(st, text).pieces == st.pieces && Feed(st, text).buffer == buf
  {
  }

  /** Later events never take back a flushed piece: the pieces of a stream extend those of its every prefix. */
  lemma {:induction false} RunExtends(es: seq<StreamEvent>, more: seq<StreamEvent>)
    ensures |Run(es).pieces| <= |Run(es + more).pieces|
    ensures Run(es + more).pieces[..|Run(es).pieces|] == Run(es).pieces
    decreases |more|
  {
    if more == [] {
      assert es + more == es;
    } else {
      var init := more[..|more| - 1];
      RunExtends(es, init);
      assert (es + more)[..|es + more| - 1] == es + init;
      var a, b, c := Run(es).pieces, Run(es + init).pieces, Run(es + more).pieces;
      assert c[..|a|] == c[..|b|][..|a|];
    }
  }

  /** The chunks of a sequence of pieces extend the chunks of its every prefix. */
  lemma {:induction false} SpeakablePrefix(ps: seq<string>, qs: seq<string>)
    requires |ps| <= |qs| && qs[..|ps|] == ps
    ensures |Speakable(ps)| <= |Speakable(qs)| && Speakable(qs)[..|Speakable(ps)|] == Speakable(ps)
    decreases |qs|
  {
    if |qs| == |ps| {
      assert qs == qs[..|ps|];
    } else {
      var init := qs[..|qs| - 1];
      assert init[..|ps|] == ps;
      SpeakablePrefix(ps, init);
      assert Speakable(qs) == Speakable(init) + SendSafe(qs[|qs| - 1]);
      PrefixAppend(Speakable(ps), Speakable(init), SendSafe(qs[|qs| - 1]));
    }
  }

  /** A prefix of a sequence is a prefix of that sequence extended. */
  lemma PrefixAppend<T>(a: seq<T>, b: seq<T>, x: seq<T>)
    requires |a| <= |b| && b[..|a|] == a
    ensures |a| <= |b + x| && (b + x)[..|a|] == a
  {
    assert (b + x)[..|a|] == b[..|a|];
  }

  /** A chunk once handed to `onChunk` stays: the chunks sent after more events extend those sent before. */
  lemma ChunksOnlyGrow(es: seq<StreamEvent>, more: seq<StreamEvent>)
    ensures var before, after := Speakable(Run(es).pieces), Speakable(Run(es + more).pieces);
      |before| <= |after| && after[..|before|] == before
  {
    RunExtends(es, more);
    SpeakablePrefix(Run(es).pieces, Run(es + more).pieces);
  }

  /** Function calls are collected in arrival order and never touch the text. */
  lemma {:induction false} RunCalls(es: seq<StreamEvent>)
    ensures Run(es).calls == AllCalls(es)
  {
    if es != [] {
      RunCalls(es[..|es| - 1]);
    }
  }

  /**
   * The quirk of lines 140-146: a text event that shows /\[GENDER:/ enters
   * `fullText` twice, raw and then stripped.
   */
  lemma TaggedEventCountedTwice(st: SegState, t: string)
    requires Includes(t, TagOpen) && StripTags(t) != []
    ensures Step(st, Text(t)).fullText == st.fullText + t + StripTags(t)
  {
    assert Step(st, Text(t)) == Feed(st.(fullText := st.fullText + t), StripTags(t));
  }

  lemma SpeakableAppend(ps: seq<string>, p: string)
    ensures Speakable(ps + [p]) == Speakable(ps) + SendSafe(p)
  {
    assert (ps + [p])[..|ps|] == ps;
  }

  /** The text half of one iteration: buffer the spoken text and flush a piece at a mark or past the word limit. */
  method FeedText(fullText: string, wordBuffer: string, ghost calls: seq<FunctionCall>, ghost pieces: seq<string>,
                  chunks: seq<string>, text: string)
    returns (newText: string, newBuffer: string, ghost newPieces: seq<string>, newChunks: seq<string>)
    requires text != [] && chunks == Speakable(pieces)
    ensures SegState(newText, newBuffer, calls, newPieces) == Feed(SegState(fullText, wordBuffer, calls, pieces), text)
    ensures newChunks == Speakable(newPieces)
  {
    newText := fullText + text;
    newBuffer := wordBuffer + text;
    newPieces, newChunks := pieces, chunks;
    var mark := FirstMark(newBuffer, 0);
    if mark.Some? {
      var piece := newBuffer[..mark.value + 1];
      SpeakableAppend(pieces, piece);
      newChunks := chunks + SendSafe(piece);
      newPieces := pieces + [piece];
      newBuffer := newBuffer[mark.value + 1..];
    } else if ManyWords(newBuffer) {
      SpeakableAppend(pieces, newBuffer);
      newChunks := chunks + SendSafe(newBuffer);
      newPieces := pieces + [newBuffer];
      newBuffer := [];
    }
  }

  /**
   * The `for await` loop of `_handleStreamResult`: the chunks handed to
   * `onChunk` during the stream, the accumulated full text, the word buffer
   * left over and the function calls.
   */
  method Segment(events: seq<StreamEvent>)
      returns (chunks: seq<string>, fullText: string, wordBuffer: string, functionCalls: seq<FunctionCall>)
    ensures chunks == Speakable(Run(events).pieces)
    ensures forall c :: c in chunks ==> c != [] && Trimmed(c)
    ensures fullText == Run(events).fullText && wordBuffer == Run(events).buffer
    ensures functionCalls == AllCalls(events)
  {
    fullText, wordBuffer, functionCalls, chunks := "", "", [], [];
    ghost var pieces: seq<string> := [];
    var i := 0;
    while i < |events|
      invariant 0 <= i <= |events|
      invariant SegState(fullText, wordBuffer, functionCalls, pieces) == Run(events[..i])
      invariant chunks == Speakable(pieces)
    {
      assert events[..i + 1][..i] == events[..i];
      ghost var st := SegState(fullText, wordBuffer, functionCalls, pieces);
      var e := events[i];
      assert Run(events[..i + 1]) == Step(st, e);
      i := i + 1;
      match e {
        case Calls(cs) =>
          functionCalls := functionCalls + cs;
        case Text(t) =>
          var text := t;
          if text == [] { continue; }
          if Includes(text, TagOpen) {
            fullText := fullText + text;
            text := StripTags(text);
          }
          ghost var pre := SegState(fullText, wordBuffer, functionCalls, pieces);
          assert Step(st, e) == Feed(pre, text) by {
            assert text == Spoken(e);
            assert pre == if Includes(t, TagOpen) then st.(fullText := st.fullText + t) else st;
          }
          if text == [] { continue; }
          fullText, wordBuffer, pieces, chunks := FeedText(fullText, wordBuffer, functionCalls, pieces, chunks, text);
      }
    }
    assert events[..|events|] == events;
    RunCalls(events);
  }

  // ---------------------------------------------------------------------
  // Committing the turn
  // ---------------------------------------------------------------------

  /** What `onComplete` receives. */
  datatype Completion = Completion(text: string, requiresToolCall: bool, functionCalls: Option<seq<FunctionCall>>)

  /** At the start of `s`: the tag /\[GENDER:\s*(male|female)\]/i, giving its lower-cased group. */
  function GenderTagAt(s: string): (g: Option<string>)
    ensures g.Some? ==> g.value == "male" || g.value == "female"
  {
    if CiPrefix(s, TagOpen) then
      var w := s[SpaceEnd(s, |TagOpen|)..];
      if CiPrefix(w, "MALE]") then Some("male")
      else if CiPrefix(w, "FEMALE]") then Some("female")
      else None
    else None
  }

  /** The tag, if any, that starts at position `j` of `s`. */
  function GenderTagIn(s: string, j: nat): (g: Option<string>)
    requires j <= |s|
  {
    GenderTagAt(s[j..])
  }

  /** Where `fullText.match(/\[GENDER:\s*(male|female)\]/i)` matches: the leftmost such tag at or after `i`. */
  function GenderTagFrom(s: string, i: nat): (pos: Option<nat>)
    requires i <= |s|
    decreases |s| - i
    ensures pos.Some? ==> i <= pos.value <= |s| && GenderTagIn(s, pos.value).Some?
    ensures pos.None? ==> forall j :: i <= j <= |s| ==> GenderTagIn(s, j).None?
  {
    if GenderTagIn(s, i).Some? then Some(i)
    else if i == |s| then None
    else GenderTagFrom(s, i + 1)
  }

  /** The match found is the leftmost one. */
  lemma {:induction false} GenderTagFromLeftmost(s: string, i: nat, j: nat)
    requires i <= j <= |s| && GenderTagFrom(s, i).Some? && j < GenderTagFrom(s, i).value
    ensures GenderTagIn(s, j).None?
    decreases |s| - i
  {
    if j > i {
      GenderTagFromLeftmost(s, i + 1, j);
    }
  }

  /** The lower-cased gender the leftmost tag of `s` names, if any. */
  function FirstGenderTag(s: string): (g: Option<string>)
    ensures g.Some? ==> g.value == "male" || g.value == "female"
    ensures g.None? <==> forall j :: 0 <= j <= |s| ==> GenderTagIn(s, j).None?
  {
    match GenderTagFrom(s, 0)
    case Some(p) => GenderTagIn(s, p)
    case None => None
  }

  /** The user turn `_handleStreamResult` saves: only a non-empty user message. */
  function UserTurns(userMessage: Option<string>): seq<Turn> {
    if userMessage.Some? && userMessage.value != [] then [Turn(User, TextPart(userMessage.value))] else []
  }

  /** Saves the user message, when there is one to save. */
  function RecordUser(m: Sessions, id: string, userMessage: Option<string>): (m': Sessions)
    ensures History(m', id) == History(m, id) + UserTurns(userMessage)
    ensures Gender(m', id) == Gender(m, id)
    ensures forall k :: k in m && k != id ==> k in m' && m'[k] == m[k]
  {
    if userMessage.Some? && userMessage.value != [] then AppendText(m, id, User, userMessage.value) else m
  }

  /**
   * Saves the model's reply: a gender tag in the full text sets the session's
   * gender and the saved and reported text is then stripped and trimmed.
   */
  function RecordReply(m: Sessions, id: string, fullText: string): (r: (Completion, Sessions))
    ensures !r.0.requiresToolCall && r.0.functionCalls == None
    ensures History(r.1, id) == History(m, id) + [Turn(Model, TextPart(r.0.text))]
    ensures forall k :: k in m && k != id ==> k in r.1 && r.1[k] == m[k]
    ensures Gender(r.1, id) == (if FirstGenderTag(fullText).Some? then FirstGenderTag(fullText) else Gender(m, id))
    ensures FirstGenderTag(fullText).Some? ==> r.0.text == Trim(StripTags(fullText))
    ensures FirstGenderTag(fullText).None? ==> r.0.text == fullText
  {
    match FirstGenderTag(fullText)
    case Some(g) =>
      var text := Trim(StripTags(fullText));
      (Completion(text, false, None), AppendText(AssignGender(m, id, g), id, Model, text))
    case None =>
      (Completion(fullText, false, None), AppendText(m, id, Model, fullText))
  }

  /**
   * The end of `_handleStreamResult` as a function of the session store: with
   * function calls, `onComplete` reports them and history is untouched;
   * otherwise the user message (when non-empty), an inferred gender and the
   * model turn are recorded.
   */
  function Commit(m: Sessions, id: string, userMessage: Option<string>, fullText: string, calls: seq<FunctionCall>)
    : (r: (Completion, Sessions))
    ensures |calls| > 0 ==> r.1 == m && r.0 == Completion(fullText, true, Some(calls))
    ensures |calls| == 0 ==> !r.0.requiresToolCall && r.0.functionCalls == None
    ensures |calls| == 0 ==>
      History(r.1, id) == History(m, id) + UserTurns(userMessage) + [Turn(Model, TextPart(r.0.text))]
    ensures |calls| == 0 ==> forall k :: k in m && k != id ==> k in r.1 && r.1[k] == m[k]
    ensures |calls| == 0 ==>
      Gender(r.1, id) == (if FirstGenderTag(fullText).Some? then FirstGenderTag(fullText) else Gender(m, id))
    ensures |calls| == 0 && FirstGenderTag(fullText).Some? ==> r.0.text == Trim(StripTags(fullText))
    ensures |calls| == 0 && FirstGenderTag(fullText).None? ==> r.0.text == fullText
  {
    if |calls| > 0 then (Completion(fullText, true, Some(calls)), m)
    else RecordReply(RecordUser(m, id, userMessage), id, fullText)
  }

  /**
   * A plain exchange (a non-empty user message, no tool call) adds exactly a
   * user turn and a model turn, so N such exchanges add 2N alternating turns.
   */
  lemma PlainTurnAddsPair(m: Sessions, id: string, u: string, fullText: string)
    requires u != []
    ensures var r := Commit(m, id, Some(u), fullText, []);
      |History(r.1, id)| == |History(m, id)| + 2
      && History(r.1, id)[|History(m, id)|].role == User
      && History(r.1, id)[|History(m, id)| + 1].role == Model
  {
  }

  /** A continuation (no user message) adds exactly one model turn. */
  lemma ContinuationAddsOne(m: Sessions, id: string, fullText: string)
    ensures var r := Commit(m, id, None, fullText, []);
      |History(r.1, id)| == |History(m, id)| + 1
      && History(r.1, id)[|History(m, id)|].role == Model
  {
  }

  /** The outcome of a streamed turn: `onComplete` or `onError`. */
  datatype StreamOutcome = Completed(completion: Completion) | Failed

  /**
   * `_handleStreamResult`: segments the stream, flushes the leftover buffer,
   * emits the chunks and commits the turn to the session store. When the
   * stream throws after delivering `events` (`broken`), the error is
   * rethrown: the chunks already sent stay sent, the leftover buffer is
   * never sent and nothing is committed.
   */
  method HandleStreamResult(store: Store, id: string, userMessage: Option<string>, events: seq<StreamEvent>, broken: bool)
      returns (chunks: seq<string>, outcome: StreamOutcome)
    modifies store
    ensures broken ==> outcome == Failed && chunks == Speakable(Run(events).pieces) && store.sessions == old(store.sessions)
    ensures !broken ==> chunks == Speakable(Flushed(Run(events)))
    ensures !broken ==> outcome.Completed?
    ensures !broken ==> (outcome.completion, store.sessions) == Commit(old(store.sessions), id, userMessage, Run(events).fullText, AllCalls(events))
  {
    var fullText, wordBuffer, calls;
    chunks, fullText, wordBuffer, calls := Segment(events);
    if broken {
      return chunks, Failed;
    }
    if wordBuffer != [] {
      SpeakableAppend(Run(events).pieces, wordBuffer);
      chunks := chunks + SendSafe(wordBuffer);
    }
    if |calls| > 0 {
      return chunks, Completed(Completion(fullText, true, Some(calls)));
    }
    if userMessage.Some? && userMessage.value != [] {
      store.AddToHistory(id, User, userMessage.value);
    }
    var g := FirstGenderTag(fullText);
    if g.Some? {
      store.SetGender(id, g.value);
      fullText := Trim(StripTags(fullText));
    }
    store.AddToHistory(id, Model, fullText);
    outcome := Completed(Completion(fullText, false, None));
  }

  /**
   * `continueConversationStream`: the same handling with no user message to
   * save; the provider's stream after the tool results is `events`, and
   * `broken` says it throws after them, which the `catch` hands to
   * `onError` once the chunks so far have been sent.
   */
  method ContinueConversationStream(store: Store, id: string, events: seq<StreamEvent>, broken: bool)
      returns (chunks: seq<string>, outcome: StreamOutcome)
    modifies store
    ensures broken ==> outcome == Failed && chunks == Speakable(Run(events).pieces) && store.sessions == old(store.sessions)
    ensures !broken ==> chunks == Speakable(Flushed(Run(events)))
    ensures !broken ==> outcome.Completed?
    ensures !broken ==> (outcome.completion, store.sessions) == Commit(old(store.sessions), id, None, Run(events).fullText, AllCalls(events))
  {
    chunks, outcome := HandleStreamResult(store, id, None, events, broken);
  }

  // ---------------------------------------------------------------------
  // Sticky domain
  // ---------------------------------------------------------------------

  const YachtWords: seq<string> := ["יאכטה", "שיט", "הפלגה", "yacht"]
  const TerminalWords: seq<string> := ["מסוף", "אשראי", "terminal"]

  /** `detectDomain(text)`: 'Yachts' if any yacht keyword occurs (checked first), else 'Terminals', else null. */
  function DetectDomain(text: string): (r: Option<string>)
    ensures r == Some("Yachts") <==> exists k :: 0 <= k < |YachtWords| && Includes(ToLower(text), YachtWords[k])
    ensures r == Some("Terminals") <==>
      (forall k :: 0 <= k < |YachtWords| ==> !Includes(ToLower(text), YachtWords[k]))
      && exists k :: 0 <= k < |TerminalWords| && Includes(ToLower(text), TerminalWords[k])
    ensures r.None? <==>
      (forall k :: 0 <= k < |YachtWords| ==> !Includes(ToLower(text), YachtWords[k]))
      && (forall k :: 0 <= k < |TerminalWords| ==> !Includes(ToLower(text), TerminalWords[k]))
  {
    var lower := ToLower(text);
    if AnyIncluded(lower, YachtWords) then Some("Yachts")
    else if AnyIncluded(lower, TerminalWords) then Some("Terminals")
    else None
  }

  /**
   * The engine and the retriever rank the domains in opposite orders: a
   * text naming both a yacht and a terminal is a yacht conversation here and
   * a terminal search for the retriever.
   */
  lemma DomainOrdersDisagree(text: string)
    requires Includes(ToLower(text), "terminal") && Includes(ToLower(text), "yacht")
    ensures DetectDomain(text) == Some("Yachts")
    ensures Retriever.InferDomain(Some(text)) == Some("Terminals")
  {
    assert YachtWords[3] == "yacht";
    assert Retriever.TerminalKeywords[0] == "terminal";
    IncludesIff(ToLower(text), "terminal");
    assert text != [];
  }

  /**
   * `processMessageStream`: after creating the voice session it calls
   * `sessionManager.getDomain` or `sessionManager.setDomain`, which the
   * session store does not export; the call throws a TypeError, which the
   * surrounding `catch` hands to `onError`. No generation takes place.
   */
  method ProcessMessageStream(store: Store, userMessage: string, id: string) returns (outcome: StreamOutcome)
    modifies store
    ensures store.sessions == Init(old(store.sessions), id, "voice")
    ensures outcome == Failed
  {
    store.InitSession(id, "voice");
    // Whatever `detectDomain` finds, the next call is `getDomain` or
    // `setDomain`, neither of which the session store has.
    outcome := Failed;
  }
}
