/** Escaping and the inline-code placeholders of renderInline (ui/src/lib/markdown.ts). The link, emphasis and
    mention rewrites that run in between are any rewrite that keeps the placeholders. */
module MarkdownInline {
  import opened Prelude

  const NUL: char := '\U{0}'

  // ----- escapeHtml -----

  /** text.replaceAll(c, sub), for a single character c. */
  function ReplaceAll(text: string, c: char, sub: string): string {
    if text == "" then "" else (if text[0] == c then sub else [text[0]]) + ReplaceAll(text[1..], c, sub)
  }

  function EscapeHtml(text: string): string {
    ReplaceAll(ReplaceAll(ReplaceAll(ReplaceAll(ReplaceAll(text, '&', "&amp;"), '<', "&lt;"), '>', "&gt;"), '"', "&quot;"), '\'', "&#39;")
  }

  function Entity(c: char): string {
    match c
    case '&' => "&amp;"
    case '<' => "&lt;"
    case '>' => "&gt;"
    case '"' => "&quot;"
    case '\'' => "&#39;"
    case _ => [c]
  }

  /** One pass over the text, each character on its own. */
  function Escaped(text: string): string {
    if text == "" then "" else Entity(text[0]) + Escaped(text[1..])
  }

  lemma {:induction false} ReplaceConcat(s: string, t: string, c: char, sub: string)
    ensures ReplaceAll(s + t, c, sub) == ReplaceAll(s, c, sub) + ReplaceAll(t, c, sub)
  {
    if s == "" {
      assert s + t == t;
    } else {
      ReplaceConcat(s[1..], t, c, sub);
      assert (s + t)[1..] == s[1..] + t;
      var first := if s[0] == c then sub else [s[0]];
      var a, b := ReplaceAll(s[1..], c, sub), ReplaceAll(t, c, sub);
      assert first + (a + b) == (first + a) + b;
    }
  }

  lemma {:induction false} ReplaceAbsent(s: string, c: char, sub: string)
    requires c !in s
    ensures ReplaceAll(s, c, sub) == s
  {
    if s != "" {
      ReplaceAbsent(s[1..], c, sub);
    }
  }

  lemma ReplaceOne(x: char, c: char, sub: string)
    ensures ReplaceAll([x], c, sub) == if x == c then sub else [x]
  {
    assert [x][1..] == "";
    assert ReplaceAll("", c, sub) == "";
  }

  /** The five replacements in turn, on text that starts with one more character. */
  lemma EscapeFirst(x: char, rest: string)
    ensures EscapeHtml([x] + rest) == EscapeHtml([x]) + EscapeHtml(rest)
  {
    ReplaceConcat([x], rest, '&', "&amp;");
    var a, r := ReplaceAll([x], '&', "&amp;"), ReplaceAll(rest, '&', "&amp;");
    ReplaceConcat(a, r, '<', "&lt;");
    var b, s := ReplaceAll(a, '<', "&lt;"), ReplaceAll(r, '<', "&lt;");
    ReplaceConcat(b, s, '>', "&gt;");
    var c, t := ReplaceAll(b, '>', "&gt;"), ReplaceAll(s, '>', "&gt;");
    ReplaceConcat(c, t, '"', "&quot;");
    ReplaceConcat(ReplaceAll(c, '"', "&quot;"), ReplaceAll(t, '"', "&quot;"), '\'', "&#39;");
  }

  /** One replacement of a character that is still itself, or that an earlier one has turned into its entity. */
  lemma ReplaceStep(x: char, done: bool, c: char)
    requires c == '<' || c == '>' || c == '"' || c == '\''
    requires done ==> x == '&' || x == '<' || x == '>' || x == '"'
    requires done ==> x != c
    ensures ReplaceAll(if done then Entity(x) else [x], c, Entity(c)) == if done || x == c then Entity(x) else [x]
  {
    if done {
      ReplaceAbsent(Entity(x), c, Entity(c));
    } else {
      ReplaceOne(x, c, Entity(c));
    }
  }

  lemma EscapeOne(x: char)
    ensures EscapeHtml([x]) == Entity(x)
  {
    ReplaceOne(x, '&', "&amp;");
    ReplaceStep(x, x == '&', '<');
    ReplaceStep(x, x == '&' || x == '<', '>');
    ReplaceStep(x, x == '&' || x == '<' || x == '>', '"');
    ReplaceStep(x, x == '&' || x == '<' || x == '>' || x == '"', '\'');
  }

  /** The order of the replacements is right: none of them escapes what another one wrote. */
  lemma {:induction false} EscapeIsOnePass(text: string)
    ensures EscapeHtml(text) == Escaped(text)
  {
    if text != "" {
      EscapeIsOnePass(text[1..]);
      assert text == [text[0]] + text[1..];
      EscapeFirst(text[0], text[1..]);
      EscapeOne(text[0]);
    }
  }

  /** How a browser reads the five entities back. */
  function Unescaped(s: string): string {
    if s == "" then ""
    else if "&amp;" <= s then "&" + Unescaped(s[5..])
    else if "&lt;" <= s then "<" + Unescaped(s[4..])
    else if "&gt;" <= s then ">" + Unescaped(s[4..])
    else if "&quot;" <= s then "\"" + Unescaped(s[6..])
    else if "&#39;" <= s then "'" + Unescaped(s[5..])
    else [s[0]] + Unescaped(s[1..])
  }

  lemma UnescapedEntity(c: char, rest: string)
    ensures Unescaped(Entity(c) + rest) == [c] + Unescaped(rest)
  {
    var e := Entity(c);
    var s := e + rest;
    assert s[|e|..] == rest && e <= s;
    if c == '<' || c == '>' || c == '&' || c == '"' || c == '\'' {
      assert s[1] == e[1];
      assert "&amp;" <= s <==> c == '&';
      assert "&lt;" <= s <==> c == '<';
      assert "&gt;" <= s <==> c == '>';
      assert "&quot;" <= s <==> c == '"';
    } else {
      assert s[0] == c;
    }
  }

  /** What is shown is what was written: escaping loses nothing. */
  lemma {:induction false} EscapeRoundTrip(text: string)
    ensures Unescaped(EscapeHtml(text)) == text
  {
    EscapeIsOnePass(text);
    if text != "" {
      EscapeRoundTrip(text[1..]);
      EscapeIsOnePass(text[1..]);
      UnescapedEntity(text[0], Escaped(text[1..]));
    }
  }

  /** No character of the text can open or close a tag or an attribute value, and no placeholder mark appears. */
  lemma {:induction false} EscapeIsInert(text: string)
    ensures forall c :: c in EscapeHtml(text) ==> c != '<' && c != '>' && c != '"' && c != '\''
    ensures NUL !in text ==> NUL !in EscapeHtml(text)
  {
    EscapeIsOnePass(text);
    if text != "" {
      EscapeIsInert(text[1..]);
      EscapeIsOnePass(text[1..]);
      EntityIsInert(text[0]);
    }
  }

  lemma EntityIsInert(x: char)
    ensures forall c :: c in Entity(x) ==> c != '<' && c != '>' && c != '"' && c != '\''
    ensures x != NUL ==> NUL !in Entity(x)
  {
  }

  // ----- placeholders -----

  predicate IsDigit(c: char) {
    '0' <= c <= '9'
  }

  function Digit(n: nat): char
    requires n < 10
  {
    ['0', '1', '2', '3', '4', '5', '6', '7', '8', '9'][n]
  }

  /** How a number is concatenated to a string. */
  function Decimal(n: nat): (s: string)
    ensures s != "" && forall i :: 0 <= i < |s| ==> IsDigit(s[i])
  {
    if n < 10 then [Digit(n)] else Decimal(n / 10) + [Digit(n % 10)]
  }

  /** How Number reads it back. */
  function NumberOf(s: string): nat
    requires forall i :: 0 <= i < |s| ==> IsDigit(s[i])
  {
    if s == "" then 0 else 10 * NumberOf(s[..|s| - 1]) + DigitValue(s[|s| - 1])
  }

  function DigitValue(c: char): nat
    requires IsDigit(c)
  {
    c as int - 48
  }

  lemma {:induction false} NumberOfDecimal(n: nat)
    ensures NumberOf(Decimal(n)) == n
  {
    if n < 10 {
      assert Decimal(n)[..0] == "";
    } else {
      NumberOfDecimal(n / 10);
      assert Decimal(n)[..|Decimal(n)| - 1] == Decimal(n / 10);
    }
  }

  function DigitsEnd(s: string, i: nat): (j: nat)
    requires i <= |s|
    ensures i <= j <= |s|
    ensures forall k :: i <= k < j ==> IsDigit(s[k])
    ensures j < |s| ==> !IsDigit(s[j])
    decreases |s| - i
  {
    if i < |s| && IsDigit(s[i]) then DigitsEnd(s, i + 1) else i
  }

  /** out.replace(PLACEHOLDER_RE, ...): every NUL, digits, NUL becomes the numbered string ("undefined" past the end). */
  function Restore(s: string, codes: seq<string>): string {
    if s == "" then ""
    else if s[0] == NUL then
      var j := DigitsEnd(s, 1);
      if 1 < j < |s| && s[j] == NUL then
        var k := NumberOf(s[1..j]);
        (if k < |codes| then codes[k] else "undefined") + Restore(s[j + 1..], codes)
      else [s[0]] + Restore(s[1..], codes)
    else [s[0]] + Restore(s[1..], codes)
  }

  function Placeholder(k: nat): string {
    [NUL] + Decimal(k) + [NUL]
  }

  /** A rendered line in which code spans are still placeholders. */
  datatype Part = Text(text: string) | Ref(k: nat)

  function WithPlaceholders(parts: seq<Part>): string {
    if parts == [] then ""
    else (match parts[0] case Text(t) => t case Ref(k) => Placeholder(k)) + WithPlaceholders(parts[1..])
  }

  function WithCodes(parts: seq<Part>, codes: seq<string>): string {
    if parts == [] then ""
    else
      (match parts[0]
       case Text(t) => t
       case Ref(k) => if k < |codes| then codes[k] else "undefined") + WithCodes(parts[1..], codes)
  }

  lemma {:induction false} RestoreText(t: string, rest: string, codes: seq<string>)
    requires NUL !in t
    ensures Restore(t + rest, codes) == t + Restore(rest, codes)
  {
    if t == "" {
      assert t + rest == rest;
    } else {
      RestoreText(t[1..], rest, codes);
      RestoreChar(t[0], t[1..] + rest, codes);
      assert t + rest == [t[0]] + (t[1..] + rest);
      assert t == [t[0]] + t[1..];
    }
  }

  lemma RestoreChar(c: char, rest: string, codes: seq<string>)
    requires c != NUL
    ensures Restore([c] + rest, codes) == [c] + Restore(rest, codes)
  {
    assert ([c] + rest)[1..] == rest;
  }

  lemma {:induction false} DigitsEndAt(s: string, i: nat, j: nat)
    requires i <= j < |s| && !IsDigit(s[j]) && forall k :: i <= k < j ==> IsDigit(s[k])
    ensures DigitsEnd(s, i) == j
    decreases j - i
  {
    if i < j {
      DigitsEndAt(s, i + 1, j);
    }
  }

  lemma RestoreRef(k: nat, rest: string, codes: seq<string>)
    ensures Restore(Placeholder(k) + rest, codes) == (if k < |codes| then codes[k] else "undefined") + Restore(rest, codes)
  {
    var d := Decimal(k);
    var s := Placeholder(k) + rest;
    var j := 1 + |d|;
    assert s[0] == NUL && s[j] == NUL && s[1..j] == d && s[j + 1..] == rest;
    forall i | 1 <= i < j ensures IsDigit(s[i]) {
      assert s[i] == d[i - 1];
    }
    DigitsEndAt(s, 1, j);
    NumberOfDecimal(k);
  }

  /** The substitution restores exactly the placeholders: whatever the rewrites in between have made of the text
      around them, in whatever order they have left them, each comes out as its own code span, and
      nothing else is taken for one. */
  lemma {:induction false} RestoreIsExact(parts: seq<Part>, codes: seq<string>)
    requires forall p :: p in parts && p.Text? ==> NUL !in p.text
    ensures Restore(WithPlaceholders(parts), codes) == WithCodes(parts, codes)
  {
    if parts != [] {
      RestoreIsExact(parts[1..], codes);
      match parts[0]
      case Text(t) => RestoreText(t, WithPlaceholders(parts[1..]), codes);
      case Ref(k) => RestoreRef(k, WithPlaceholders(parts[1..]), codes);
    }
  }

  // ----- extraction -----

  /** The index of the first backtick from i on, or the length. */
  function NextTick(s: string, i: nat): (j: nat)
    requires i <= |s|
    ensures i <= j <= |s| && (j < |s| ==> s[j] == '`') && forall k :: i <= k < j ==> s[k] != '`'
    decreases |s| - i
  {
    if i < |s| && s[i] != '`' then NextTick(s, i + 1) else i
  }

  /** `([^`]+)` at the start of s: the length of the code, 0 if there is no match. */
  function CodeLength(s: string): (n: nat)
    ensures n > 0 ==> n + 2 <= |s| && s[0] == '`' && s[n + 1] == '`' && forall k :: 1 <= k <= n ==> s[k] != '`'
  {
    if s == "" || s[0] != '`' then 0
    else
      var j := NextTick(s, 1);
      if 1 < j < |s| then j - 1 else 0
  }

  /** The pattern: a backtick, one or more characters that are none, a backtick. */
  ghost predicate CodeMatch(s: string, n: nat) {
    n >= 1 && n + 2 <= |s| && s[0] == '`' && s[n + 1] == '`' && forall k :: 1 <= k <= n ==> s[k] != '`'
  }

  lemma CodeLengthIsPattern(s: string)
    ensures CodeLength(s) > 0 <==> exists n: nat :: CodeMatch(s, n)
    ensures forall n: nat :: CodeMatch(s, n) ==> CodeLength(s) == n
  {
    forall n: nat | CodeMatch(s, n) ensures CodeLength(s) == n {
      var j := NextTick(s, 1);
      assert !(j < n + 1) && !(n + 1 < j);
    }
    if CodeLength(s) > 0 {
      assert CodeMatch(s, CodeLength(s));
    }
  }

  /** The global replace by placeholders: leftmost matches, none overlapping, numbered from k on. */
  function Extract(s: string, k: nat): (string, seq<string>) {
    if s == "" then ("", [])
    else
      var n := CodeLength(s);
      if n > 0 then
        var (out, codes) := Extract(s[n + 2..], k + 1);
        (Placeholder(k) + out, ["<code>" + s[1..n + 1] + "</code>"] + codes)
      else
        var (out, codes) := Extract(s[1..], k);
        ([s[0]] + out, codes)
  }

  /** What the two steps are for: every code span wrapped where it stands, and its content left alone. */
  function WrapCode(s: string): string {
    if s == "" then ""
    else
      var n := CodeLength(s);
      if n > 0 then "<code>" + s[1..n + 1] + "</code>" + WrapCode(s[n + 2..])
      else [s[0]] + WrapCode(s[1..])
  }

  lemma ExtractCode(s: string, before: seq<string>, code: string, rest: seq<Part>, out: string, codes: seq<string>)
    requires out == WithPlaceholders(rest)
    ensures WithPlaceholders([Ref(|before|)] + rest) == Placeholder(|before|) + out
    ensures WithCodes([Ref(|before|)] + rest, before + ([code] + codes)) ==
            code + WithCodes(rest, before + [code] + codes)
  {
    var parts := [Ref(|before|)] + rest;
    assert parts[1..] == rest;
    assert before + ([code] + codes) == before + [code] + codes;
    assert (before + [code] + codes)[|before|] == code;
  }

  lemma ExtractChar(c: char, before: seq<string>, rest: seq<Part>)
    ensures WithPlaceholders([Text([c])] + rest) == [c] + WithPlaceholders(rest)
    ensures WithCodes([Text([c])] + rest, before) == [c] + WithCodes(rest, before)
  {
    assert ([Text([c])] + rest)[1..] == rest;
  }

  /** Extracted text is text with placeholders for the spans it numbered, which follow `before`. */
  lemma {:induction false} ExtractParts(s: string, before: seq<string>) returns (parts: seq<Part>)
    requires NUL !in s
    ensures forall p :: p in parts && p.Text? ==> NUL !in p.text
    ensures var (out, codes) := Extract(s, |before|);
            out == WithPlaceholders(parts) && WithCodes(parts, before + codes) == WrapCode(s)
  {
    if s == "" {
      parts := [];
    } else if CodeLength(s) > 0 {
      var n := CodeLength(s);
      var code := "<code>" + s[1..n + 1] + "</code>";
      var rest := ExtractParts(s[n + 2..], before + [code]);
      var (out, codes) := Extract(s[n + 2..], |before| + 1);
      ExtractCode(s, before, code, rest, out, codes);
      parts := [Ref(|before|)] + rest;
    } else {
      var rest := ExtractParts(s[1..], before);
      ExtractChar(s[0], before + Extract(s[1..], |before|).1, rest);
      parts := [Text([s[0]])] + rest;
    }
  }

  /** Taking the code spans out and putting them back wraps each of them in place: the placeholders cannot
      collide with the text, as long as that holds no NUL. */
  lemma PlaceholdersRoundTrip(s: string)
    requires NUL !in s
    ensures var (out, codes) := Extract(s, 0);
            Restore(out, codes) == WrapCode(s)
  {
    var parts := ExtractParts(s, []);
    var (out, codes) := Extract(s, 0);
    assert [] + codes == codes;
    RestoreIsExact(parts, codes);
  }

  /** src.replaceAll(NUL, ''), the step that makes the hypothesis true of every message. */
  lemma {:induction false} StrippedHasNoNul(src: string)
    ensures NUL !in ReplaceAll(src, NUL, "")
    ensures NUL !in src ==> ReplaceAll(src, NUL, "") == src
  {
    if src != "" {
      StrippedHasNoNul(src[1..]);
    }
  }

  /** Inline code of any message, before the other rewrites: stripped, escaped, taken out and put back, it is wrapped
      in place, and between the tags stands the escaped code. */
  lemma InlineCodeOfAnyMessage(src: string)
    ensures var text := EscapeHtml(ReplaceAll(src, NUL, ""));
            var (out, codes) := Extract(text, 0);
            Restore(out, codes) == WrapCode(text)
  {
    StrippedHasNoNul(src);
    EscapeIsInert(ReplaceAll(src, NUL, ""));
    PlaceholdersRoundTrip(EscapeHtml(ReplaceAll(src, NUL, "")));
  }
}
