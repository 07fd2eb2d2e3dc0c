/** The few JavaScript string primitives the client relies on: the
    whitespace set shared by `String.prototype.trim` and the regular
    expression class `\s`, `trim` itself, and `split` on one character.
    A JavaScript string is modelled as a sequence of `char`; since a
    `char` is a Unicode scalar value, this matches the UTF-16 code units
    only for text of the Basic Multilingual Plane. */
module JsText {

  /** WhiteSpace and LineTerminator code points of ECMAScript: exactly what
      `trim` removes and what `\s` matches. */
  predicate IsWhitespace(c: char) {
    || c == '\t' || c == '\n' || c == '\U{000B}' || c == '\U{000C}' || c == '\r'
    || c == ' ' || c == '\U{00A0}' || c == '\U{1680}'
    || ('\U{2000}' <= c <= '\U{200A}')
    || c == '\U{2028}' || c == '\U{2029}' || c == '\U{202F}' || c == '\U{205F}'
    || c == '\U{3000}' || c == '\U{FEFF}'
  }

  /** The code points that the regular expression `.` does not match. */
  predicate IsLineTerminator(c: char) {
    c == '\n' || c == '\r' || c == '\U{2028}' || c == '\U{2029}'
  }

  /** `\d` */
  predicate IsDigit(c: char) {
    '0' <= c <= '9'
  }

  /** The characters `\b` treats as word characters: `[A-Za-z0-9_]`. */
  predicate IsWordChar(c: char) {
    ('A' <= c <= 'Z') || ('a' <= c <= 'z') || IsDigit(c) || c == '_'
  }

  ghost predicate AllWhitespace(s: string) {
    forall k :: 0 <= k < |s| ==> IsWhitespace(s[k])
  }

  /** Drops the leading whitespace. */
  function TrimStart(s: string): string {
    if s == [] || !IsWhitespace(s[0]) then s else TrimStart(s[1..])
  }

  /** The result is the suffix of `s` that starts at its first
      non-whitespace character. */
  lemma {:induction false} TrimStartMeaning(s: string)
    ensures var r := TrimStart(s);
            && |r| <= |s| && r == s[|s| - |r|..]
            && (forall k :: 0 <= k < |s| - |r| ==> IsWhitespace(s[k]))
            && (r == [] || !IsWhitespace(r[0]))
  {
    if s != [] && IsWhitespace(s[0]) {
      TrimStartMeaning(s[1..]);
      var r := TrimStart(s);
      assert forall k :: 1 <= k < |s| - |r| ==> s[1..][k - 1] == s[k];
    }
  }

  /** Drops the trailing whitespace. */
  function TrimEnd(s: string): string {
    if s == [] || !IsWhitespace(s[|s| - 1]) then s else TrimEnd(s[..|s| - 1])
  }

  /** The result is the prefix of `s` that ends at its last non-whitespace
      character. */
  lemma {:induction false} TrimEndMeaning(s: string)
    ensures var r := TrimEnd(s);
            && |r| <= |s| && r == s[..|r|]
            && (forall k :: |r| <= k < |s| ==> IsWhitespace(s[k]))
            && (r == [] || !IsWhitespace(r[|r| - 1]))
  {
    if s != [] && IsWhitespace(s[|s| - 1]) {
      TrimEndMeaning(s[..|s| - 1]);
    }
  }

  /** `s.trim()` */
  function Trim(s: string): string {
    TrimEnd(TrimStart(s))
  }

  /** The trimmed string is empty exactly when every character of `s` is
      whitespace, and otherwise starts and ends with a visible character. */
  lemma TrimMeaning(s: string)
    ensures Trim(s) == "" <==> AllWhitespace(s)
    ensures Trim(s) == [] || (!IsWhitespace(Trim(s)[0]) && !IsWhitespace(Trim(s)[|Trim(s)| - 1]))
  {
    var t := TrimStart(s);
    TrimStartMeaning(s);
    TrimEndMeaning(t);
    if Trim(s) != [] {
      assert Trim(s)[0] == t[0];
    }
  }

  /** `parts.join(sep)` */
  function Join(parts: seq<string>, sep: char): string
    requires |parts| > 0
  {
    if |parts| == 1 then parts[0] else parts[0] + [sep] + Join(parts[1..], sep)
  }

  /** `s.split(sep)` for a one-character separator: every occurrence of `sep`
      ends a piece, so the empty string gives one empty piece. */
  function Split(s: string, sep: char): (r: seq<string>)
    ensures |r| > 0
    ensures forall k :: 0 <= k < |r| ==> sep !in r[k]
    ensures Join(r, sep) == s
  {
    if s == [] then [""]
    else
      var rest := Split(s[1..], sep);
      if s[0] == sep then
        assert s == [sep] + s[1..];
        [""] + rest
      else
        JoinConsFirst(s[0], rest, sep);
        assert s == [s[0]] + s[1..];
        [[s[0]] + rest[0]] + rest[1..]
  }

  /** Prefixing the first piece prefixes the joined string. */
  lemma JoinConsFirst(c: char, parts: seq<string>, sep: char)
    requires |parts| > 0
    ensures Join([[c] + parts[0]] + parts[1..], sep) == [c] + Join(parts, sep)
  {
    var ps := [[c] + parts[0]] + parts[1..];
    assert ps[1..] == parts[1..];
  }

  /** Splitting the pieces of a join gives the pieces back, provided no
      piece holds the separator. */
  lemma {:induction false} SplitJoin(parts: seq<string>, sep: char)
    requires |parts| > 0
    requires forall k :: 0 <= k < |parts| ==> sep !in parts[k]
    ensures Split(Join(parts, sep), sep) == parts
    decreases |parts|, |parts[0]|
  {
    if |parts| == 1 {
      SplitNoSeparator(parts[0], sep);
    } else if parts[0] == "" {
      var rest := parts[1..];
      SplitJoin(rest, sep);
      assert Join(parts, sep) == [sep] + Join(rest, sep);
      SplitAtSeparator(Join(rest, sep), sep);
      assert parts == [""] + rest;
    } else {
      var c := parts[0][0];
      var shorter := [parts[0][1..]] + parts[1..];
      DropFirstChar(parts, sep);
      SplitJoin(shorter, sep);
      JoinConsFirst(c, shorter, sep);
      Reassemble(parts);
      assert c != sep by { assert parts[0][0] in parts[0]; }
      SplitAtOther(c, Join(shorter, sep), sep);
    }
  }

  /** A leading separator ends an empty first piece. */
  lemma SplitAtSeparator(s: string, sep: char)
    ensures Split([sep] + s, sep) == [""] + Split(s, sep)
  {
    assert ([sep] + s)[1..] == s;
  }

  /** Any other leading character goes to the front of the first piece. */
  lemma SplitAtOther(c: char, s: string, sep: char)
    requires c != sep
    ensures Split([c] + s, sep) == [[c] + Split(s, sep)[0]] + Split(s, sep)[1..]
  {
    assert ([c] + s)[1..] == s;
  }

  /** Putting the first character back in front of the shortened first
      piece gives the original pieces. */
  lemma Reassemble(parts: seq<string>)
    requires |parts| > 0 && parts[0] != ""
    ensures [[parts[0][0]] + ([parts[0][1..]] + parts[1..])[0]] + ([parts[0][1..]] + parts[1..])[1..] == parts
  {
    assert [parts[0][0]] + parts[0][1..] == parts[0];
    assert ([parts[0][1..]] + parts[1..])[1..] == parts[1..];
  }

  /** Dropping the first character of the first piece keeps every piece
      free of the separator. */
  lemma DropFirstChar(parts: seq<string>, sep: char)
    requires |parts| > 0 && parts[0] != ""
    requires forall k :: 0 <= k < |parts| ==> sep !in parts[k]
    ensures forall k :: 0 <= k < |parts| ==> sep !in ([parts[0][1..]] + parts[1..])[k]
  {
    var shorter := [parts[0][1..]] + parts[1..];
    forall k | 0 <= k < |parts| ensures sep !in shorter[k] {
      if k == 0 {
        assert forall m :: 0 <= m < |parts[0][1..]| ==> parts[0][1..][m] == parts[0][m + 1];
      } else {
        assert shorter[k] == parts[k];
      }
    }
  }

  /** A string without the separator is one piece. */
  lemma {:induction false} SplitNoSeparator(s: string, sep: char)
    requires sep !in s
    ensures Split(s, sep) == [s]
  {
    if s != [] {
      assert s[0] in s;
      assert forall m :: 0 <= m < |s[1..]| ==> s[1..][m] == s[m + 1];
      SplitNoSeparator(s[1..], sep);
      assert [s[0]] + s[1..] == s;
    }
  }
}
