/**
 * data/botBehavior.js: the bot's fixed texts and voice settings, the language
 * detector that picks a voice, the clean-up applied to every reply before it
 * is spoken, and the fallbacks of the system prompt.
 *
 * The phonetic transcription table, which the source loads from a JSON file
 * next to it, is a parameter: a sequence of (word, replacement) pairs in the
 * order `Object.keys` lists them (integer-like keys first, ascending, then
 * the other keys in the file's order).
 */
module BotBehavior {
  import opened Optional
  import opened JsString

  // ---------------------------------------------------------------------
  // Fixed settings and texts
  // ---------------------------------------------------------------------

  datatype VoiceSetting = VoiceSetting(language: string, ttsVoice: string, sttLanguage: string)

  /** `voiceSettings`, keyed by the codes `detectLanguage` returns. */
  const VoiceSettings: map<string, VoiceSetting> := map[
    "he" := VoiceSetting("he-IL", "Google.he-IL-Standard-A", "iw-IL"),
    "ru" := VoiceSetting("ru-RU", "Google.ru-RU-Wavenet-A", "ru-RU")]

  const Greetings: map<string, string> := map[
    "initial" := "שלום, הגעתם לחברת לידר, אני העוזרת האישית. איך אפשר לעזור?"]

  const Messages: map<string, string> := map[
    "checking" := "רק רגע, אני בודקת...",
    "noSpeech" := "לא שמעתי, אפשר לחזור?",
    "apiError" := "יש תקלה קטנה, נסה שוב מאוחר יותר",
    "transferring" := "מעבירה אותך לנציג, המתן רגע.",
    "waitMusicUrl" := "https://mabotmusik-2585.twil.io/mb.mp3"]

  /** What `getMessage` answers for a type it does not know. */
  const SystemError: string := "שגיאה במערכת"

  /** `operatorSettings`: where and how a call is transferred to a human. */
  const OperatorPhone: string := "+972533403449"
  const OperatorTimeout: nat := 20
  const OperatorCallbackUrl: string := "https://api.leadertechnology.shop/handle-dial-status"

  /** `getGreeting()`. */
  function GetGreeting(): (g: string)
    ensures "initial" in Greetings && g == Greetings["initial"]
  {
    Greetings["initial"]
  }

  /** `getMessage(type)`: `messages[type] || greetings[type] || 'שגיאה במערכת'`. */
  function GetMessage(t: string): (r: string)
    ensures t in Messages ==> r == Messages[t]
    ensures t !in Messages && t in Greetings ==> r == Greetings[t]
    ensures t !in Messages && t !in Greetings ==> r == SystemError
  {
    if t in Messages && Messages[t] != [] then Messages[t]
    else if t in Greetings && Greetings[t] != [] then Greetings[t]
    else SystemError
  }

  /** Every lookup yields a non-empty text, so the `||` chain never falls through to an empty string. */
  lemma GetMessageNonEmpty(t: string)
    ensures GetMessage(t) != []
  {
  }

  // ---------------------------------------------------------------------
  // Language detection
  // ---------------------------------------------------------------------

  const RussianKeywords: seq<string> := ["russian", "rusit", "ברוסית", "רוסית", "по-русски"]

  /** The code points U+0400 to U+04FF, the range the Cyrillic test of `detectLanguage` looks for. */
  predicate IsCyrillic(c: char) {
    '\U{0400}' <= c <= '\U{04FF}'
  }

  predicate HasCyrillic(s: string) {
    exists i :: 0 <= i < |s| && IsCyrillic(s[i])
  }

  /** `detectLanguage(text)`: 'ru' for Cyrillic text or a Russian keyword, else 'he'. */
  function DetectLanguage(text: string): (lang: string)
    ensures lang in VoiceSettings
    ensures text == [] ==> lang == "he"
    ensures lang == "ru" <==>
      HasCyrillic(text) || exists k :: 0 <= k < |RussianKeywords| && Includes(ToLower(text), RussianKeywords[k])
    ensures lang != "ru" ==> lang == "he"
  {
    if text == [] then "he"
    else if HasCyrillic(text) || AnyIncluded(ToLower(text), RussianKeywords) then "ru"
    else "he"
  }

  /** The voice of the detected language is always one of the two configured voices. */
  lemma DetectedVoiceDefined(text: string)
    ensures VoiceSettings[DetectLanguage(text)].ttsVoice in {"Google.he-IL-Standard-A", "Google.ru-RU-Wavenet-A"}
    ensures VoiceSettings[DetectLanguage(text)].sttLanguage == (if DetectLanguage(text) == "ru" then "ru-RU" else "iw-IL")
  {
  }

  // ---------------------------------------------------------------------
  // Text clean-up before speech
  // ---------------------------------------------------------------------

  /** The end of the maximal run of non-space characters from `i` (`\S+` is greedy). */
  function NonSpaceEnd(s: string, i: nat): (e: nat)
    requires i <= |s|
    decreases |s| - i
    ensures i <= e <= |s|
    ensures forall j :: i <= j < e ==> !IsSpace(s[j])
    ensures e < |s| ==> IsSpace(s[e])
  {
    if i < |s| && !IsSpace(s[i]) then NonSpaceEnd(s, i + 1) else i
  }

  predicate StartsWith(s: string, p: string) {
    |p| <= |s| && s[..|p|] == p
  }

  /** The length of a match of /https?:\/\/\S+/ at the start of `s`, if one starts there. */
  function UrlAt(s: string): (n: Option<nat>)
    ensures n.Some? ==> 8 <= n.value <= |s| && StartsWith(s, "http")
    ensures n.Some? ==> forall j :: 7 <= j < n.value ==> !IsSpace(s[j])
    ensures n.Some? && n.value < |s| ==> IsSpace(s[n.value])
  {
    if StartsWith(s, "https://") && |s| > 8 && !IsSpace(s[8]) then Some(NonSpaceEnd(s, 8))
    else if StartsWith(s, "http://") && |s| > 7 && !IsSpace(s[7]) then Some(NonSpaceEnd(s, 7))
    else None
  }

  /** `text.replace(/https?:\/\/\S+/g, '')`. */
  function RemoveUrls(s: string): (r: string)
    decreases |s|
    ensures |r| <= |s|
    ensures forall c :: c in r ==> c in s
  {
    if s == [] then []
    else match UrlAt(s)
      case Some(n) =>
        assert forall c :: c in s[n..] ==> c in s;
        RemoveUrls(s[n..])
      case None =>
        assert forall c :: c in s[1..] ==> c in s;
        [s[0]] + RemoveUrls(s[1..])
  }

  /** No link starts anywhere in `s`. */
  predicate NoUrl(s: string) {
    forall i :: 0 <= i < |s| ==> UrlAt(s[i..]).None?
  }

  /**
   * The global replace leaves no link behind: what follows a removed link is
   * a space, so no link can be joined across the gap.
   */
  lemma {:induction false} RemoveUrlsLeavesNoUrl(s: string)
    ensures NoUrl(RemoveUrls(s))
    decreases |s|
  {
    if s != [] {
      match UrlAt(s)
      case Some(n) =>
        RemoveUrlsLeavesNoUrl(s[n..]);
      case None =>
        var t := RemoveUrls(s[1..]);
        var r := [s[0]] + t;
        assert RemoveUrls(s) == r;
        RemoveUrlsLeavesNoUrl(s[1..]);
        forall i | 0 <= i < |r| ensures UrlAt(r[i..]).None? {
          if i > 0 {
            assert r[i..] == t[i - 1..];
          } else {
            assert r[0..] == r;
            HeadUrl(s);
          }
        }
    }
  }

  /** A link at the start of the output was already a link at the start of the input. */
  lemma HeadUrl(s: string)
    ensures UrlAt(RemoveUrls(s)).Some? ==> UrlAt(s).Some?
  {
    var r := RemoveUrls(s);
    if StartsWith(r, "https://") && |r| > 8 && !IsSpace(r[8]) {
      forall j | 0 <= j < 8 ensures !IsSpace(r[j]) {
        assert r[j] == r[..8][j];
      }
      RemoveUrlsHead(s, 9);
      assert s[..8] == s[..9][..8] && r[..8] == r[..9][..8];
    } else if StartsWith(r, "http://") && |r| > 7 && !IsSpace(r[7]) {
      forall j | 0 <= j < 7 ensures !IsSpace(r[j]) {
        assert r[j] == r[..7][j];
      }
      RemoveUrlsHead(s, 8);
      assert s[..7] == s[..8][..7] && r[..7] == r[..8][..7];
    }
  }

  /** The removal keeps a leading run of non-space characters as it was in the input. */
  lemma {:induction false} RemoveUrlsHead(t: string, k: nat)
    requires k <= |RemoveUrls(t)|
    ensures (forall j :: 0 <= j < k ==> !IsSpace(RemoveUrls(t)[j])) ==> k <= |t| && RemoveUrls(t)[..k] == t[..k]
    decreases |t|
  {
    if k > 0 {
      match UrlAt(t)
      case Some(n) =>
        var u := t[n..];
        if n < |t| {
          assert u[0] == t[n] && !StartsWith(u, "http");
          assert RemoveUrls(t) == RemoveUrls(u) == [u[0]] + RemoveUrls(u[1..]);
          assert IsSpace(RemoveUrls(t)[0]);
        }
      case None =>
        var r, r' := RemoveUrls(t), RemoveUrls(t[1..]);
        assert r == [t[0]] + r';
        RemoveUrlsHead(t[1..], k - 1);
        if forall j :: 0 <= j < k ==> !IsSpace(r[j]) {
          assert forall j :: 0 <= j < k - 1 ==> r'[j] == r[j + 1];
          assert r[..k] == [t[0]] + r'[..k - 1];
          assert t[..k] == [t[0]] + t[1..][..k - 1];
        }
    }
  }

  /** Text in which no "http" occurs has no link to remove. */
  lemma {:induction false} RemoveUrlsNoScheme(s: string)
    requires !Includes(s, "http")
    ensures RemoveUrls(s) == s
  {
    if s != [] {
      assert !OccursAt(s, "http", 0);
      assert UrlAt(s).None?;
      forall j | 0 <= j <= |s[1..]| ensures !OccursAt(s[1..], "http", j) {
        assert !OccursAt(s, "http", j + 1);
        if j + 4 <= |s[1..]| {
          assert s[1..][j..j + 4] == s[j + 1..j + 1 + 4];
        }
      }
      IncludesIff(s[1..], "http");
      RemoveUrlsNoScheme(s[1..]);
      assert RemoveUrls(s) == [s[0]] + RemoveUrls(s[1..]);
    }
  }

  /** A link followed by a space is removed up to the space, which is kept. */
  lemma RemoveUrlsLink(link: string, rest: string)
    requires StartsWith(link, "https://") && |link| > 8
    requires forall j :: 0 <= j < |link| ==> !IsSpace(link[j])
    ensures RemoveUrls(link + " " + rest) == RemoveUrls(" " + rest)
  {
    var s := link + " " + rest;
    assert s[..8] == link[..8];
    assert NonSpaceEnd(s, 8) == |link| by {
      NonSpaceEndAt(s, 8, |link|);
    }
    assert StartsWith(s, "https://") && |s| > 8 && !IsSpace(s[8]);
    assert UrlAt(s) == Some(|link|);
    assert RemoveUrls(s) == RemoveUrls(s[|link|..]);
    assert s[|link|..] == " " + rest;
  }

  lemma {:induction false} NonSpaceEndAt(s: string, i: nat, e: nat)
    requires i <= e < |s| && IsSpace(s[e])
    requires forall j :: i <= j < e ==> !IsSpace(s[j])
    ensures NonSpaceEnd(s, i) == e
    decreases e - i
  {
    if i < e {
      NonSpaceEndAt(s, i + 1, e);
    }
  }

  /** The characters of /[*_#`~]/. */
  predicate IsMarkdown(c: char) {
    c == '*' || c == '_' || c == '#' || c == '`' || c == '~'
  }

  /** `text.replace(/[*_#`~]/g, '')`. */
  function RemoveMarkdown(s: string): (r: string)
    decreases |s|
    ensures forall c :: c in r <==> c in s && !IsMarkdown(c)
  {
    if s == [] then []
    else if IsMarkdown(s[0]) then RemoveMarkdown(s[1..])
    else [s[0]] + RemoveMarkdown(s[1..])
  }

  /** No `>` ever follows a `<`: the regular expression /<[^>]*>/ finds nothing. */
  predicate NoAngleSpan(s: string) {
    forall i, j :: 0 <= i < j < |s| && s[i] == '<' ==> s[j] != '>'
  }

  /** The first `>` at or after `i`. */
  function FirstClose(s: string, i: nat): (k: Option<nat>)
    requires i <= |s|
    decreases |s| - i
    ensures k.Some? ==> i <= k.value < |s| && s[k.value] == '>'
    ensures k.None? ==> forall j :: i <= j < |s| ==> s[j] != '>'
  {
    if i == |s| then None
    else if s[i] == '>' then Some(i)
    else FirstClose(s, i + 1)
  }

  /** `text.replace(/<[^>]*>/g, '')`: each `<` with a later `>` is removed together with the first such `>`. */
  function RemoveAngleTags(s: string): (r: string)
    decreases |s|
    ensures forall c :: c in r ==> c in s
    ensures NoAngleSpan(r)
  {
    if s == [] then []
    else if s[0] == '<' && FirstClose(s, 1).Some? then RemoveAngleTags(s[FirstClose(s, 1).value + 1..])
    else
      var t := RemoveAngleTags(s[1..]);
      assert s[0] == '<' ==> '>' !in t;
      assert forall j :: 0 < j < |[s[0]] + t| ==> ([s[0]] + t)[j] == t[j - 1];
      [s[0]] + t
  }

  /** No two whitespace characters are adjacent, and the only whitespace is the plain space. */
  predicate SingleSpaced(s: string) {
    && (forall i :: 0 <= i < |s| && IsSpace(s[i]) ==> s[i] == ' ')
    && (forall i :: 0 <= i < |s| - 1 ==> !(IsSpace(s[i]) && IsSpace(s[i + 1])))
  }

  /** `text.replace(/\s+/g, ' ')`. */
  function CollapseSpaces(s: string): (r: string)
    decreases |s|
    ensures s == [] <==> r == []
    ensures s != [] && IsSpace(s[0]) ==> r[0] == ' '
    ensures s != [] && !IsSpace(s[0]) ==> r[0] == s[0]
    ensures forall c :: c in r ==> c == ' ' || (c in s && !IsSpace(c))
    ensures SingleSpaced(r)
  {
    if s == [] then []
    else if IsSpace(s[0]) then
      var t := CollapseSpaces(s[SpaceEnd(s, 0)..]);
      assert forall j :: 0 < j < |[' '] + t| ==> ([' '] + t)[j] == t[j - 1];
      [' '] + t
    else
      var t := CollapseSpaces(s[1..]);
      assert forall j :: 0 < j < |[s[0]] + t| ==> ([s[0]] + t)[j] == t[j - 1];
      [s[0]] + t
  }

  /** A `<`-free or `>`-free tail can follow a character without creating a span. */
  lemma ConsNoAngle(c: char, t: string)
    requires NoAngleSpan(t)
    requires c == '<' ==> '>' !in t
    ensures NoAngleSpan([c] + t)
  {
    var s := [c] + t;
    forall i, j | 0 <= i < j < |s| && s[i] == '<' ensures s[j] != '>' {
      assert s[j] == t[j - 1];
      if i > 0 {
        assert s[i] == t[i - 1];
      }
    }
  }

  /** A slice of a span-free string is span-free. */
  lemma NoAngleSlice(s: string, a: nat, b: nat)
    requires a <= b <= |s| && NoAngleSpan(s)
    ensures NoAngleSpan(s[a..b])
  {
    var t := s[a..b];
    forall i, j | 0 <= i < j < |t| && t[i] == '<' ensures t[j] != '>' {
      assert t[i] == s[a + i] && t[j] == s[a + j];
    }
  }

  /** Collapsing whitespace keeps a span-free string span-free. */
  lemma {:induction false} CollapseNoAngle(s: string)
    requires NoAngleSpan(s)
    ensures NoAngleSpan(CollapseSpaces(s))
    decreases |s|
  {
    if s != [] {
      if IsSpace(s[0]) {
        var e := SpaceEnd(s, 0);
        NoAngleSlice(s, e, |s|);
        CollapseNoAngle(s[e..]);
        ConsNoAngle(' ', CollapseSpaces(s[e..]));
      } else {
        NoAngleSlice(s, 1, |s|);
        CollapseNoAngle(s[1..]);
        if s[0] == '<' {
          assert '>' !in s[1..] by {
            forall j | 0 <= j < |s[1..]| ensures s[1..][j] != '>' {
              assert s[1..][j] == s[j + 1];
            }
          }
        }
        ConsNoAngle(s[0], CollapseSpaces(s[1..]));
      }
    }
  }

  /** `trim` takes a slice. */
  lemma TrimSlice(s: string) returns (a: nat, b: nat)
    ensures a <= b <= |s| && Trim(s) == s[a..b]
  {
    var u := TrimStart(s);
    var v := TrimEnd(u);
    a := |s| - |u|;
    b := a + |v|;
    assert u == s[a..];
    assert v == u[..|v|];
    assert s[a..][..|v|] == s[a..b];
  }

  /**
   * The first four steps of `cleanTextForTTS`, before the transcriptions:
   * they only remove characters, except that a whitespace run becomes one
   * plain space.
   */
  function Cleanup(text: string): (r: string)
    ensures forall c :: c in r ==> c == ' ' || (c in text && !IsMarkdown(c))
  {
    var collapsed := CollapseSpaces(RemoveAngleTags(RemoveMarkdown(RemoveUrls(text))));
    TrimChars(collapsed);
    Trim(collapsed)
  }

  /** What a reply is like once cleaned: the promises of lines 122-124. */
  predicate Speakable(s: string) {
    && (forall i :: 0 <= i < |s| ==> !IsMarkdown(s[i]))
    && NoAngleSpan(s)
    && Trimmed(s)
    && SingleSpaced(s)
  }

  /** The clean-up leaves no markdown symbol, no `<…>` span, no surrounding whitespace and no whitespace run. */
  lemma CleanupSpeakable(text: string)
    ensures Speakable(Cleanup(text))
  {
    CollapsedSpeakable(RemoveAngleTags(RemoveMarkdown(RemoveUrls(text))));
  }

  /** Collapsing and trimming a markdown-free, span-free string leaves it speakable. */
  lemma CollapsedSpeakable(g: string)
    requires forall ch :: ch in g ==> !IsMarkdown(ch)
    requires NoAngleSpan(g)
    ensures Speakable(Trim(CollapseSpaces(g)))
  {
    CollapseNoAngle(g);
    CollapsedMarkdownFree(g);
    TrimmedSpeakable(CollapseSpaces(g));
  }

  lemma CollapsedMarkdownFree(g: string)
    requires forall ch :: ch in g ==> !IsMarkdown(ch)
    ensures forall k :: 0 <= k < |CollapseSpaces(g)| ==> !IsMarkdown(CollapseSpaces(g)[k])
  {
    forall k | 0 <= k < |CollapseSpaces(g)| ensures !IsMarkdown(CollapseSpaces(g)[k]) {
      assert CollapseSpaces(g)[k] in CollapseSpaces(g);
    }
  }

  /** Trimming a collapsed, markdown-free, span-free string leaves it speakable. */
  lemma TrimmedSpeakable(c: string)
    requires forall k :: 0 <= k < |c| ==> !IsMarkdown(c[k])
    requires NoAngleSpan(c) && SingleSpaced(c)
    ensures Speakable(Trim(c))
  {
    var a, b := TrimSlice(c);
    SliceSpeakable(c, a, b);
  }

  /** A slice of a collapsed, markdown-free, span-free string keeps those properties. */
  lemma SliceSpeakable(c: string, a: nat, b: nat)
    requires a <= b <= |c|
    requires forall k :: 0 <= k < |c| ==> !IsMarkdown(c[k])
    requires NoAngleSpan(c) && SingleSpaced(c)
    ensures forall i :: 0 <= i < b - a ==> !IsMarkdown(c[a..b][i])
    ensures NoAngleSpan(c[a..b]) && SingleSpaced(c[a..b])
  {
    var r := c[a..b];
    NoAngleSlice(c, a, b);
    forall i | 0 <= i < |r| - 1 ensures !(IsSpace(r[i]) && IsSpace(r[i + 1])) {
      assert r[i] == c[a + i] && r[i + 1] == c[a + i + 1];
    }
    forall i | 0 <= i < |r| && IsSpace(r[i]) ensures r[i] == ' ' {
      assert r[i] == c[a + i];
    }
  }

  /**
   * The transcription pass: each (word, replacement) in order, replaced
   * globally when the word occurs. It brings in no character other than
   * those of the replacements.
   */
  function Transcribe(text: string, transcriptions: seq<(string, string)>): (r: string)
    decreases |transcriptions|
    ensures transcriptions == [] ==> r == text
    ensures forall c :: c in r ==> c in text || exists k :: 0 <= k < |transcriptions| && c in transcriptions[k].1
  {
    if transcriptions == [] then text
    else
      var t := Transcribe(text, transcriptions[..|transcriptions| - 1]);
      var (word, replacement) := transcriptions[|transcriptions| - 1];
      if Includes(t, word) then ReplaceAll(t, word, replacement) else t
  }

  /** A single transcription is exactly a global replacement of its word. */
  lemma TranscribeOne(text: string, word: string, replacement: string)
    requires word != []
    ensures Transcribe(text, [(word, replacement)]) == ReplaceAll(text, word, replacement)
  {
    assert [(word, replacement)][..0] == [];
    if !Includes(text, word) {
      ReplaceAllAbsent(text, word, replacement);
    }
  }

  /** Deleting a one-character word removes every occurrence of it. */
  lemma TranscribeDeletes(text: string, c: char)
    ensures !Includes(Transcribe(text, [([c], "")]), [c])
  {
    TranscribeOne(text, [c], "");
    ReplaceAllRemoves(text, [c]);
  }

  /**
   * `cleanTextForTTS(text)`: links, markdown symbols and `<…>` spans are
   * removed, whitespace is collapsed and trimmed, then each transcription is
   * applied in turn.
   */
  method CleanTextForTTS(text: string, transcriptions: seq<(string, string)>) returns (r: string)
    ensures r == Transcribe(Cleanup(text), transcriptions)
    ensures transcriptions == [] ==> Speakable(r)
  {
    r := RemoveUrls(text);
    r := RemoveMarkdown(r);
    r := RemoveAngleTags(r);
    r := Trim(CollapseSpaces(r));
    ghost var cleaned := r;
    CleanupSpeakable(text);
    var i := 0;
    while i < |transcriptions|
      invariant 0 <= i <= |transcriptions|
      invariant r == Transcribe(cleaned, transcriptions[..i])
    {
      assert transcriptions[..i + 1][..i] == transcriptions[..i];
      var (word, replacement) := transcriptions[i];
      if Includes(r, word) {
        r := ReplaceAll(r, word, replacement);
      }
      i := i + 1;
    }
    assert transcriptions[..i] == transcriptions;
  }

  // ---------------------------------------------------------------------
  // System prompt
  // ---------------------------------------------------------------------

  /** The four values the system prompt interpolates; the rest of its wording is fixed text. */
  datatype PromptValues = PromptValues(time: string, clientGender: string, clientPhone: string, knowledge: string)

  /** `getSystemPrompt(context, gender, currentDate, userPhone)`, as the values it interpolates. */
  function GetSystemPrompt(context: Option<string>, gender: Option<string>, currentDate: Option<string>, userPhone: Option<string>)
    : (p: PromptValues)
    ensures p.time == (if Truthy(currentDate) then currentDate.value else "2026-01-26")
    ensures p.clientGender == (if Truthy(gender) then gender.value else "Unknown")
    ensures p.clientPhone == (if Truthy(userPhone) then userPhone.value else "Unknown")
    ensures p.knowledge == (if Truthy(context) then context.value else "Нет информации.")
  {
    PromptValues(
      Or(currentDate, "2026-01-26"),
      Or(gender, "Unknown"),
      Or(userPhone, "Unknown"),
      Or(context, "Нет информации."))
  }

  /** With nothing supplied, every value takes its fallback; nothing interpolated is ever empty. */
  lemma PromptFallbacks(context: Option<string>, gender: Option<string>, currentDate: Option<string>, userPhone: Option<string>)
    ensures GetSystemPrompt(None, None, None, None) == PromptValues("2026-01-26", "Unknown", "Unknown", "Нет информации.")
    ensures var p := GetSystemPrompt(context, gender, currentDate, userPhone);
      p.time != [] && p.clientGender != [] && p.clientPhone != [] && p.knowledge != []
  {
  }
}
