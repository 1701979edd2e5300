/** Text primitives of the JavaScript runtime that the views rely on:
    String.prototype.trim/trimStart/trimEnd, parseInt(s, 10), String(n),
    the regular expressions the forms test, and the name and initials
    helpers built from filter(Boolean).join(" ") and split(" "). */
module JsText {

  datatype Option<T> = None | Some(value: T)

  /** `o ?? ""` for an optional string field. */
  function OrEmpty(o: Option<string>): string {
    if o.Some? then o.value else ""
  }

  /** A number produced by parseInt: NaN or an integer. */
  datatype JsNum = NaN | Num(n: int)

  /** JavaScript truthiness of a parseInt result: NaN and 0 are falsy. */
  predicate Truthy(x: JsNum) {
    x.Num? && x.n != 0
  }

  // ---------------------------------------------------------------------
  // Whitespace and trimming
  // ---------------------------------------------------------------------

  /** The characters String.prototype.trim and the regular-expression class
      \s treat as white space: the ECMAScript WhiteSpace set (tab, vertical
      tab, form feed, space, no-break space, the byte order mark and the
      Unicode space separators) and the LineTerminator set. */
  predicate IsSpace(c: char) {
    || c == '\t' || c == '\U{000B}' || c == '\U{000C}' || c == ' '
    || c == '\U{00A0}' || c == '\U{FEFF}' || c == '\U{1680}'
    || ('\U{2000}' <= c <= '\U{200A}')
    || c == '\U{202F}' || c == '\U{205F}' || c == '\U{3000}'
    || c == '\n' || c == '\r' || c == '\U{2028}' || c == '\U{2029}'
  }

  predicate IsBlank(s: string) {
    forall i :: 0 <= i < |s| ==> IsSpace(s[i])
  }

  predicate NoSpace(s: string) {
    forall i :: 0 <= i < |s| ==> !IsSpace(s[i])
  }

  /** s.trimStart(): drop the leading white space, and only that. */
  function TrimStart(s: string): (r: string)
    ensures |r| <= |s| && r == s[|s| - |r|..]
    ensures forall k :: 0 <= k < |s| - |r| ==> IsSpace(s[k])
    ensures r == [] || !IsSpace(r[0])
  {
    if s != [] && IsSpace(s[0]) then TrimStart(s[1..]) else s
  }

  /** s.trimEnd(): drop the trailing white space, and only that. */
  function TrimEnd(s: string): (r: string)
    ensures |r| <= |s| && r == s[..|r|]
    ensures forall k :: |r| <= k < |s| ==> IsSpace(s[k])
    ensures r == [] || !IsSpace(r[|r| - 1])
  {
    if s != [] && IsSpace(s[|s| - 1]) then TrimEnd(s[..|s| - 1]) else s
  }

  /** s.trim(): empty exactly for blank input, otherwise it starts and ends
      with a non-space character. */
  function Trim(s: string): (r: string)
    ensures |r| <= |s|
    ensures r == [] <==> IsBlank(s)
    ensures r != [] ==> !IsSpace(r[0]) && !IsSpace(r[|r| - 1])
    ensures exists i :: BlankAround(s, r, i)
  {
    var t := TrimStart(s);
    var r := TrimEnd(t);
    assert r != [] ==> r[0] == t[0];
    TrimStartOfBlank(s);
    TrimBounds(s, t, r);
    r
  }

  /** r is the part of s starting at i, with only white space before and
      after it. */
  predicate BlankAround(s: string, r: string, i: int) {
    0 <= i <= |s| - |r| && r == s[i..i + |r|] && IsBlank(s[..i]) && IsBlank(s[i + |r|..])
  }

  /** The pieces trim() drops: a blank prefix of s is cut to give t, then a
      blank suffix of t is cut to give r, so r sits in s between two blank
      pieces. */
  lemma TrimBounds(s: string, t: string, r: string)
    requires |t| <= |s| && t == s[|s| - |t|..]
    requires forall k :: 0 <= k < |s| - |t| ==> IsSpace(s[k])
    requires |r| <= |t| && r == t[..|r|]
    requires forall k :: |r| <= k < |t| ==> IsSpace(t[k])
    ensures BlankAround(s, r, |s| - |t|)
  {
    var i := |s| - |t|;
    assert IsBlank(s[..i]) by {
      BlankSlice(s, 0, i);
      assert s[0..i] == s[..i];
    }
    assert IsBlank(s[i + |r|..]) by {
      BlankSlice(t, |r|, |t|);
      assert t[|r|..|t|] == s[i + |r|..];
    }
    assert r == s[i..i + |r|];
  }

  lemma BlankSlice(s: string, lo: nat, hi: nat)
    requires lo <= hi <= |s|
    requires forall k :: lo <= k < hi ==> IsSpace(s[k])
    ensures IsBlank(s[lo..hi])
  {
    assert forall k :: 0 <= k < hi - lo ==> s[lo..hi][k] == s[lo + k];
  }

  lemma {:induction false} TrimStartOfBlank(s: string)
    ensures IsBlank(s) ==> TrimStart(s) == []
  {
    if s != [] && IsBlank(s) {
      TrimStartOfBlank(s[1..]);
    }
  }

  /** A text without white space is its own trim. */
  lemma {:induction false} TrimOfNoSpace(s: string)
    requires NoSpace(s)
    ensures Trim(s) == s
  {
    if s != [] {
      assert !IsSpace(s[0]) && !IsSpace(s[|s| - 1]);
    }
  }

  // ---------------------------------------------------------------------
  // Decimal digits, parseInt(s, 10) and String(n)
  // ---------------------------------------------------------------------

  predicate IsDigit(c: char) {
    '0' <= c <= '9'
  }

  predicate AllDigits(s: string) {
    forall i :: 0 <= i < |s| ==> IsDigit(s[i])
  }

  /** The regular expression ^\d+$ . */
  predicate IsNumeric(s: string) {
    s != [] && AllDigits(s)
  }

  /** ^\d+$ joins: two digit runs make one, and a run with anything else
      in it does not match. */
  lemma NumericConcat(a: string, b: string)
    ensures IsNumeric(a) && IsNumeric(b) ==> IsNumeric(a + b)
    ensures IsNumeric(a + b) && a != [] ==> IsNumeric(a)
    ensures (exists i :: 0 <= i < |a| && !IsDigit(a[i])) ==> !IsNumeric(a + b)
  {
    if exists i :: 0 <= i < |a| && !IsDigit(a[i]) {
      var i :| 0 <= i < |a| && !IsDigit(a[i]);
      assert (a + b)[i] == a[i];
    }
    if IsNumeric(a + b) && a != [] {
      assert forall k :: 0 <= k < |a| ==> a[k] == (a + b)[k];
    }
  }

  function DigitValue(c: char): nat
    requires IsDigit(c)
  {
    (c as int) - ('0' as int)
  }

  function DigitChar(d: nat): (c: char)
    requires d < 10
    ensures IsDigit(c) && DigitValue(c) == d
  {
    (('0' as int) + d) as char
  }

  /** Value of a string of decimal digits, most significant digit first. */
  function DigitsValue(s: string): nat
    requires AllDigits(s)
  {
    if s == [] then 0 else DigitsValue(s[..|s| - 1]) * 10 + DigitValue(s[|s| - 1])
  }

  /** The longest prefix of s made of decimal digits. */
  function LeadingDigits(s: string): (r: string)
    ensures AllDigits(r) && r <= s
    ensures |r| < |s| ==> !IsDigit(s[|r|])
  {
    if s != [] && IsDigit(s[0]) then [s[0]] + LeadingDigits(s[1..]) else []
  }

  lemma {:induction false} LeadingDigitsOfDigits(s: string)
    requires AllDigits(s)
    ensures LeadingDigits(s) == s
  {
    if s != [] {
      LeadingDigitsOfDigits(s[1..]);
      assert [s[0]] + s[1..] == s;
    }
  }

  /** parseInt(s, 10): optional leading white space, an optional sign, then
      the longest run of digits; no digit at all gives NaN. */
  function ParseInt(s: string): JsNum {
    var t := TrimStart(s);
    var negative := t != [] && t[0] == '-';
    var unsigned := if t != [] && (t[0] == '-' || t[0] == '+') then t[1..] else t;
    var d := LeadingDigits(unsigned);
    if d == [] then NaN
    else if negative then Num(-(DigitsValue(d) as int))
    else Num(DigitsValue(d))
  }

  /** A pure digit string is read back as its decimal value. */
  lemma {:induction false} ParseIntOfDigits(s: string)
    requires IsNumeric(s)
    ensures ParseInt(s) == Num(DigitsValue(s))
  {
    assert TrimStart(s) == s;
    LeadingDigitsOfDigits(s);
  }

  /** parseInt stops at the first character that is not a digit: "12abc"
      and "12.5" read as 12. */
  lemma ParseIntStopsAtNonDigit(digits: string, rest: string)
    requires IsNumeric(digits)
    requires rest == [] || !IsDigit(rest[0])
    ensures ParseInt(digits + rest) == Num(DigitsValue(digits))
  {
    var s := digits + rest;
    assert IsDigit(s[0]) by { assert s[0] == digits[0]; }
    assert TrimStart(s) == s by { assert !IsSpace(s[0]); }
    LeadingDigitsOfPrefix(digits, rest);
    ParseIntOfUnsigned(s, digits);
  }

  lemma ParseIntOfUnsigned(s: string, digits: string)
    requires s != [] && IsDigit(s[0]) && TrimStart(s) == s
    requires AllDigits(digits) && digits != [] && LeadingDigits(s) == digits
    ensures ParseInt(s) == Num(DigitsValue(digits))
  {
  }

  lemma {:induction false} LeadingDigitsOfPrefix(digits: string, rest: string)
    requires AllDigits(digits)
    requires rest == [] || !IsDigit(rest[0])
    ensures LeadingDigits(digits + rest) == digits
  {
    if digits == [] {
      assert digits + rest == rest;
    } else {
      LeadingDigitsOfPrefix(digits[1..], rest);
      assert (digits + rest)[1..] == digits[1..] + rest;
      assert [digits[0]] + digits[1..] == digits;
    }
  }

  /** Text without any digit parses to NaN. */
  lemma ParseIntWithoutDigits(s: string)
    requires forall i :: 0 <= i < |s| ==> !IsDigit(s[i])
    ensures ParseInt(s) == NaN
  {
    var t := TrimStart(s);
    if t != [] && (t[0] == '-' || t[0] == '+') {
      assert t[1..] == s[|s| - |t| + 1..];
      if t[1..] != [] {
        assert t[1..][0] == s[|s| - |t| + 1];
      }
    } else if t != [] {
      assert t[0] == s[|s| - |t|];
    }
  }

  /** String(n) for a non-negative integer: decimal, no leading zero. */
  function NatToString(n: nat): (r: string)
    ensures r != [] && AllDigits(r)
    ensures DigitsValue(r) == n
    ensures r[0] == '0' ==> n == 0
  {
    if n < 10 then [DigitChar(n)]
    else
      var prefix := NatToString(n / 10);
      var r := prefix + [DigitChar(n % 10)];
      assert r[..|r| - 1] == prefix;
      r
  }

  /** String(n) for an integer. */
  function IntToString(n: int): (r: string)
    ensures r != []
  {
    if n < 0 then "-" + NatToString(-n) else NatToString(n)
  }

  /** String(n) is the plain decimal form: digits with no leading zero
      (except "0" itself), after a '-' for a negative n. */
  lemma IntToStringDigits(n: int)
    ensures var r := IntToString(n);
      n >= 0 ==> IsNumeric(r) && DigitsValue(r) == n && (r[0] == '0' ==> r == "0")
    ensures var r := IntToString(n);
      n < 0 ==> |r| >= 2 && r[0] == '-' && IsNumeric(r[1..]) && DigitsValue(r[1..]) == -n && r[1] != '0'
  {
    if n < 0 {
      var d := NatToString(-n);
      assert IntToString(n)[1..] == d;
    } else {
      var d := NatToString(n);
      if d[0] == '0' {
        assert n == 0;
      }
    }
  }

  /** parseInt(String(n), 10) gives n back. */
  lemma {:induction false} ParseIntRoundTrip(n: int)
    ensures ParseInt(IntToString(n)) == Num(n)
  {
    if n < 0 {
      ParseIntOfNegative(NatToString(-n));
    } else {
      ParseIntOfDigits(NatToString(n));
    }
  }

  /** A minus sign followed by digits is read back as the negated value. */
  lemma ParseIntOfNegative(digits: string)
    requires IsNumeric(digits)
    ensures ParseInt("-" + digits) == Num(-(DigitsValue(digits) as int))
  {
    var s := "-" + digits;
    assert TrimStart(s) == s by {
      assert s[0] == '-';
    }
    assert LeadingDigits(s[1..]) == digits by {
      assert s[1..] == digits;
      LeadingDigitsOfDigits(digits);
    }
    ParseIntOfMinus(s, digits);
  }

  lemma ParseIntOfMinus(s: string, digits: string)
    requires s != [] && s[0] == '-' && TrimStart(s) == s
    requires AllDigits(digits) && digits != [] && LeadingDigits(s[1..]) == digits
    ensures ParseInt(s) == Num(-(DigitsValue(digits) as int))
  {
  }

  /** Different integers print differently. */
  lemma IntToStringInjective(a: int, b: int)
    requires IntToString(a) == IntToString(b)
    ensures a == b
  {
    ParseIntRoundTrip(a);
    ParseIntRoundTrip(b);
  }

  // ---------------------------------------------------------------------
  // The two regular expressions of the forms
  // ---------------------------------------------------------------------

  /** ^\S+@\S+\.\S+$ : no white space anywhere, and an '@' and a later '.'
      each with at least one character on both sides. */
  predicate MatchesEmail(s: string) {
    NoSpace(s) &&
    exists i, j :: 0 < i < |s| && i + 1 < j && j + 1 < |s| && s[i] == '@' && s[j] == '.'
  }

  /** A text matching the e-mail pattern is never blank: the "required"
      check and the format check of the forms do not overlap. */
  lemma {:induction false} EmailMatchNotBlank(s: string)
    requires MatchesEmail(s)
    ensures Trim(s) == s && s != []
  {
    TrimOfNoSpace(s);
  }

  /** s splits as a + "@" + b + "." + c with three non-empty parts. */
  predicate EmailParts(s: string, a: string, b: string, c: string) {
    a != [] && b != [] && c != [] && s == a + "@" + b + "." + c
  }

  /** The index-based reading of ^\S+@\S+\.\S+$ is the pattern's own
      shape: a white-space-free text that splits into a non-empty part,
      '@', a non-empty part, '.', and a non-empty part. */
  lemma EmailShape(s: string)
    ensures MatchesEmail(s) <==> NoSpace(s) && exists a, b, c :: EmailParts(s, a, b, c)
  {
    if MatchesEmail(s) {
      var i, j :| 0 < i < |s| && i + 1 < j && j + 1 < |s| && s[i] == '@' && s[j] == '.';
      var a, b, c := s[..i], s[i + 1..j], s[j + 1..];
      assert s == a + "@" + b + "." + c by {
        assert s == s[..i] + [s[i]] + s[i + 1..j] + [s[j]] + s[j + 1..];
      }
      assert EmailParts(s, a, b, c);
    }
    if NoSpace(s) && exists a, b, c :: EmailParts(s, a, b, c) {
      var a, b, c :| EmailParts(s, a, b, c);
      var i, j := |a|, |a| + 1 + |b|;
      assert s[i] == '@' && s[j] == '.';
    }
  }

  /** What the e-mail pattern accepts and refuses: a plain address
      matches; a missing dot after the '@', a missing '@', an empty part
      or a space inside does not. */
  lemma EmailExamples()
    ensures MatchesEmail("ana@uni.edu")
    ensures !MatchesEmail("ana@uni") && !MatchesEmail("ana.uni.edu")
    ensures !MatchesEmail("@uni.edu") && !MatchesEmail("ana@uni.")
    ensures !MatchesEmail("ana @uni.edu")
  {
    var s := "ana@uni.edu";
    assert s[3] == '@' && s[7] == '.';
    assert " "[0] == ' ';
    assert "ana @uni.edu"[3] == ' ';
  }

  /** ^\d{4}-\d{2}-\d{2}$ */
  predicate MatchesIsoDate(s: string) {
    |s| == 10 && s[4] == '-' && s[7] == '-' &&
    forall i :: 0 <= i < 10 && i != 4 && i != 7 ==> IsDigit(s[i])
  }

  /** A text matching the date pattern splits into a four-digit year and
      two-digit month and day, separated by '-'. */
  lemma IsoDateParts(s: string)
    requires MatchesIsoDate(s)
    ensures s == s[..4] + "-" + s[5..7] + "-" + s[8..]
    ensures IsNumeric(s[..4]) && IsNumeric(s[5..7]) && IsNumeric(s[8..])
    ensures |s[..4]| == 4 && |s[5..7]| == 2 && |s[8..]| == 2
  {
    assert forall k :: 0 <= k < 4 ==> s[..4][k] == s[k];
    assert forall k :: 0 <= k < 2 ==> s[5..7][k] == s[5 + k] && s[8..][k] == s[8 + k];
  }

  /** The converse of IsoDateParts: a four-digit year, a two-digit month
      and a two-digit day joined by '-' match the date pattern. */
  lemma IsoDateFromParts(year: string, month: string, day: string)
    requires IsNumeric(year) && IsNumeric(month) && IsNumeric(day)
    requires |year| == 4 && |month| == 2 && |day| == 2
    ensures MatchesIsoDate(year + "-" + month + "-" + day)
  {
  }

  /** The digit texts of the date pattern are exactly the ones it accepts:
      "2024-03-01" matches, while a short month or a slash does not. */
  lemma IsoDateExamples()
    ensures MatchesIsoDate("2024-03-01")
    ensures !MatchesIsoDate("2024-3-01") && !MatchesIsoDate("2024/03/01")
  {
  }

  // ---------------------------------------------------------------------
  // Case, prefixes, names and initials
  // ---------------------------------------------------------------------

  /** toUpperCase on one character, restricted to ASCII letters. */
  function UpperChar(c: char): char {
    if 'a' <= c <= 'z' then ((c as int) - 32) as char else c
  }

  function ToUpper(s: string): (r: string)
    ensures |r| == |s|
  {
    if s == [] then [] else [UpperChar(s[0])] + ToUpper(s[1..])
  }

  predicate StartsWith(s: string, prefix: string) {
    prefix <= s
  }

  /** [first, last].filter(Boolean).join(" ") over two text fields (an absent
      field is ""): the non-empty parts joined by one space. */
  function JoinNames(first: string, last: string): (r: string)
    ensures r == Join(NonEmpty([first, last]), " ")
    ensures first != "" && last != "" ==> r == first + " " + last
    ensures first == "" || last == "" ==> r == first + last
    ensures r == "" <==> first == "" && last == ""
  {
    if first != "" && last != "" then first + " " + last else first + last
  }

  /** parts.filter(Boolean): the non-empty strings, in order. */
  function NonEmpty(parts: seq<string>): (r: seq<string>)
    ensures |r| <= |parts|
    ensures forall k :: 0 <= k < |r| ==> r[k] != ""
  {
    if parts == [] then []
    else (if parts[0] != "" then [parts[0]] else []) + NonEmpty(parts[1..])
  }

  /** parts.join(sep). */
  function Join(parts: seq<string>, sep: string): (r: string)
    ensures parts == [] ==> r == ""
  {
    if parts == [] then ""
    else if |parts| == 1 then parts[0]
    else parts[0] + sep + Join(parts[1..], sep)
  }

  /** `JoinNames(...) || username || ""`: the shared display-name rule of the
      navigation bar, the profile and the student dashboards. */
  function DisplayName(first: string, last: string, username: string): (r: string)
    ensures first != "" || last != "" ==> r == JoinNames(first, last)
    ensures first == "" && last == "" ==> r == username
  {
    var joined := JoinNames(first, last);
    if joined != "" then joined else username
  }

  /** s.split(" "): the pieces between single spaces, empty ones included. */
  function Split(s: string): (r: seq<string>)
    ensures |r| >= 1
  {
    if s == [] then [""]
    else if s[0] == ' ' then [""] + Split(s[1..])
    else
      var rest := Split(s[1..]);
      [[s[0]] + rest[0]] + rest[1..]
  }

  /** pieces.map(p => p[0]).join(""): an empty piece gives undefined, which
      join writes as nothing. */
  function FirstChars(pieces: seq<string>): string {
    if pieces == [] then ""
    else (if pieces[0] == "" then "" else [pieces[0][0]]) + FirstChars(pieces[1..])
  }

  /** Reference definition: the characters that start a word, that is the
      non-space characters whose predecessor is a space (or that come first
      when `atStart` holds). */
  function WordStarts(s: string, atStart: bool): string {
    if s == [] then ""
    else (if s[0] != ' ' && atStart then [s[0]] else "") + WordStarts(s[1..], s[0] == ' ')
  }

  lemma {:induction false} FirstCharsOfSplit(s: string, atStart: bool)
    ensures FirstChars(if atStart then Split(s) else Split(s)[1..]) == WordStarts(s, atStart)
  {
    if s != [] {
      var rest := Split(s[1..]);
      if s[0] == ' ' {
        FirstCharsOfSplit(s[1..], true);
        assert Split(s) == [""] + rest;
        assert Split(s)[1..] == rest;
        if atStart {
          assert FirstChars(Split(s)) == FirstChars(rest);
        }
      } else {
        FirstCharsOfSplit(s[1..], false);
        var pieces := [[s[0]] + rest[0]] + rest[1..];
        assert Split(s) == pieces;
        assert pieces[1..] == rest[1..];
        if atStart {
          assert FirstChars(pieces) == [s[0]] + FirstChars(rest[1..]);
        }
      }
    }
  }

  function Take(s: string, n: nat): (r: string)
    ensures |r| <= n && r <= s
  {
    if |s| <= n then s else s[..n]
  }

  /** name.split(" ").map(p => p[0]).join("").slice(0, 2).toUpperCase() */
  function Initials(name: string): (r: string) {
    ToUpper(Take(FirstChars(Split(name)), 2))
  }

  /** Initials are the upper-cased first letters of the first two words. */
  lemma InitialsAreWordStarts(name: string)
    ensures Initials(name) == ToUpper(Take(WordStarts(name, true), 2))
    ensures |Initials(name)| <= 2
    ensures name != [] && name[0] != ' ' ==> Initials(name) != [] && Initials(name)[0] == UpperChar(name[0])
  {
    FirstCharsOfSplit(name, true);
  }
}
