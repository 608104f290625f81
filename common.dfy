/** Values shared by the components: optional values, the records the API
    calls resolve to, and the few JavaScript string operations the handlers
    use (`trim`, `startsWith`, number-to-text). */
module Common {

  datatype Option<+T> = None | Some(value: T)

  /** JavaScript truthiness of an optional string: present and not "". */
  predicate Truthy(s: Option<string>) {
    s.Some? && s.value != ""
  }

  /** A file handed over by the browser (drop, file input or recording);
      only the fields the handlers read. */
  datatype MediaFile = MediaFile(name: string, mimeType: string, size: nat)

  /** A generated answer (`QuestionResponse` in src/lib/api.ts); only the
      fields the components read. */
  datatype Answer = Answer(question: string, response: string, timestamp: string)

  /** What a call into src/lib/api.ts resolves to. `sessionId` is the
      `session_id` field the upload handler reads; `error` is the failure
      message, absent on success. */
  datatype ApiResponse = ApiResponse(
    success: bool,
    data: Option<Answer>,
    error: Option<string>,
    sessionId: Option<string>)

  /** The message of `new Error(response.error || fallback)`. */
  function ErrorText(error: Option<string>, fallback: string): (r: string)
    ensures Truthy(error) ==> r == error.value
    ensures !Truthy(error) ==> r == fallback
    ensures fallback != "" ==> r != ""
  {
    if Truthy(error) then error.value else fallback
  }

  /** `s.startsWith(prefix)`. */
  predicate StartsWith(s: string, prefix: string) {
    |prefix| <= |s| && s[..|prefix|] == prefix
  }

  /** A MIME type starts with a five-letter top-level type and a slash
      exactly when those are its first six characters. */
  lemma TypePrefix(m: string, kind: string)
    requires |kind| == 5
    ensures StartsWith(m, kind + "/") <==> |m| >= 6 && m[..5] == kind && m[5] == '/'
  {
    if |m| >= 6 {
      assert m[..6] == m[..5] + [m[5]];
      if m[..6] == kind + "/" {
        assert m[..5] == (kind + "/")[..5];
        assert m[5] == (kind + "/")[5];
      }
    }
  }

  /** The MIME filter of the drop handlers: a video or audio MIME type, that
      is, a top-level type of exactly "video" or "audio" before the slash. */
  predicate IsPlayableMedia(f: MediaFile)
    ensures IsPlayableMedia(f) <==>
      |f.mimeType| >= 6 && f.mimeType[5] == '/' && f.mimeType[..5] in {"video", "audio"}
  {
    var m := f.mimeType;
    TypePrefix(m, "video");
    TypePrefix(m, "audio");
    StartsWith(m, "video/") || StartsWith(m, "audio/")
  }

  /** The characters `String.prototype.trim` removes: tab, line feed, line
      tab, form feed and carriage return (U+0009 to U+000D), the space
      separators (space, U+00A0, U+1680, U+2000 to U+200A, U+202F, U+205F,
      U+3000), the line and paragraph separators (U+2028, U+2029) and the
      byte-order mark (U+FEFF). */
  const WhitespaceChars: set<char> := {
    '\t', '\n', '\U{000B}', '\U{000C}', '\r', ' ', '\U{00A0}', '\U{1680}',
    '\U{2000}', '\U{2001}', '\U{2002}', '\U{2003}', '\U{2004}', '\U{2005}',
    '\U{2006}', '\U{2007}', '\U{2008}', '\U{2009}', '\U{200A}',
    '\U{2028}', '\U{2029}', '\U{202F}', '\U{205F}', '\U{3000}', '\U{FEFF}'
  }

  predicate IsWhitespace(c: char) {
    c in WhitespaceChars
  }

  predicate AllWhitespace(s: string) {
    forall i :: 0 <= i < |s| ==> IsWhitespace(s[i])
  }

  /** The first position at or after `i` that does not hold white space
      (or `|s|`): where `trim` starts keeping characters. */
  function SkipLeading(s: string, i: nat): (j: nat)
    requires i <= |s|
    ensures i <= j <= |s|
    ensures forall k :: i <= k < j ==> IsWhitespace(s[k])
    ensures j < |s| ==> !IsWhitespace(s[j])
    decreases |s| - i
  {
    if i < |s| && IsWhitespace(s[i]) then SkipLeading(s, i + 1) else i
  }

  /** The end of what is left once the white space just before `e` (and not
      before `lo`) is dropped: where `trim` stops keeping characters. */
  function SkipTrailing(s: string, lo: nat, e: nat): (j: nat)
    requires lo <= e <= |s|
    ensures lo <= j <= e
    ensures forall k :: j <= k < e ==> IsWhitespace(s[k])
    ensures j > lo ==> !IsWhitespace(s[j - 1])
  {
    if lo < e && IsWhitespace(s[e - 1]) then SkipTrailing(s, lo, e - 1) else e
  }

  /** `s.trim()`: the part of `s` between a white-space prefix (as long as it
      can be) and a white-space suffix; it neither starts nor ends with white
      space. */
  function Trim(s: string): (r: string)
    ensures var k := SkipLeading(s, 0);
      && k + |r| <= |s| && s[k..k + |r|] == r
      && (forall i :: 0 <= i < k ==> IsWhitespace(s[i]))
      && (forall i :: k + |r| <= i < |s| ==> IsWhitespace(s[i]))
    ensures r != [] ==> !IsWhitespace(r[0]) && !IsWhitespace(r[|r| - 1])
  {
    var k := SkipLeading(s, 0);
    s[k..SkipTrailing(s, k, |s|)]
  }

  /** `!s.trim()`: the guard the forms use to reject an empty question. It
      holds exactly for the texts made only of white space. */
  predicate IsBlank(s: string)
    ensures IsBlank(s) <==> AllWhitespace(s)
  {
    BlankIffAllWhitespace(s);
    Trim(s) == ""
  }

  /** Trimming leaves nothing exactly when every character is white space. */
  lemma BlankIffAllWhitespace(s: string)
    ensures Trim(s) == "" <==> AllWhitespace(s)
  {
    var k := SkipLeading(s, 0);
    if Trim(s) != "" {
      assert !IsWhitespace(s[k]);
    }
  }

  // Decimal text of numbers, as template literals print integers.

  function DigitChar(d: nat): (c: char)
    requires d < 10
    ensures '0' <= c <= '9'
  {
    ('0' as int + d) as char
  }

  /** The digits of `n` in base ten, without leading zeros. */
  function Digits(n: nat): (r: string)
    ensures |r| >= 1
    ensures forall i :: 0 <= i < |r| ==> '0' <= r[i] <= '9'
    ensures n >= 10 ==> r[0] != '0'
  {
    if n < 10 then [DigitChar(n)] else Digits(n / 10) + [DigitChar(n % 10)]
  }

  /** `${n}` for an integer `n`. */
  function IntText(n: int): (r: string)
    ensures n < 0 <==> (r != [] && r[0] == '-')
  {
    if n < 0 then "-" + Digits(-n) else Digits(n)
  }

  /** Reads back a run of decimal digits; the reference inverse of Digits. */
  function ParseDigits(s: string): Option<nat>
    decreases |s|
  {
    if s == [] || !('0' <= s[|s| - 1] <= '9') then None
    else
      var d := s[|s| - 1] as int - '0' as int;
      if |s| == 1 then Some(d)
      else
        var front := ParseDigits(s[..|s| - 1]);
        if front.None? then None else Some(front.value * 10 + d)
  }

  /** Reads back an optionally negative decimal integer. */
  function ParseInt(s: string): Option<int> {
    if s != [] && s[0] == '-' then
      var v := ParseDigits(s[1..]);
      if v.None? then None else var n: int := v.value; Some(-n)
    else
      var v := ParseDigits(s);
      if v.None? then None else Some(v.value)
  }

  lemma {:induction false} DigitsRoundTrip(n: nat)
    ensures ParseDigits(Digits(n)) == Some(n)
  {
    if n >= 10 {
      var s := Digits(n);
      assert s[..|s| - 1] == Digits(n / 10);
      DigitsRoundTrip(n / 10);
    }
  }

  /** A text starting with a minus sign reads as the negated number after it. */
  lemma ParseNegative(t: string, v: nat)
    requires t != [] && t[0] == '-' && ParseDigits(t[1..]) == Some(v)
    ensures ParseInt(t) == Some(-(v as int))
  {
  }

  lemma {:induction false} IntTextRoundTrip(n: int)
    ensures ParseInt(IntText(n)) == Some(n)
  {
    var t := IntText(n);
    if n < 0 {
      assert t[1..] == Digits(-n);
      DigitsRoundTrip(-n);
      ParseNegative(t, -n);
    } else {
      DigitsRoundTrip(n);
    }
  }
}
