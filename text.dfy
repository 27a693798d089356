/** JavaScript values and string operations the extension relies on:
    truthiness of optional strings, `includes`, `startsWith`, `toLowerCase`,
    `trim`, `split(" ")[0]`, `substring` and number-to-string conversion. */
module Js {

  /** An optional value: `None` stands for `undefined` or `null`. */
  datatype Option<+T> = None | Some(value: T)

  /** JavaScript truthiness of a string-valued property: absent and `""` are falsy. */
  predicate Truthy(o: Option<string>) {
    o.Some? && o.value != ""
  }

  /** `a || b` on optional strings: the first truthy operand, else `b`. */
  function Or(a: Option<string>, b: Option<string>): (r: Option<string>)
    ensures Truthy(a) ==> r == a
    ensures !Truthy(a) ==> r == b
  {
    if Truthy(a) then a else b
  }

  /** `a || "default"`: the value if truthy, else the default. */
  function OrDefault(a: Option<string>, default: string): (r: string)
    ensures Truthy(a) ==> r == a.value
    ensures !Truthy(a) ==> r == default
  {
    if Truthy(a) then a.value else default
  }

  /** The `{success, message}` / `{success: false, error}` replies of the handlers. */
  datatype Outcome = Success(message: string) | Failure(error: string)

  /** A property that may hold a string, `null`, or nothing at all. */
  datatype Value = Undefined | Null | Str(s: string)

  /** The property where only its truthiness matters: `null` and `undefined` alike are `None`. */
  function Opt(v: Value): (o: Option<string>)
    ensures o.Some? <==> v.Str?
    ensures v.Str? ==> o.value == v.s
  {
    if v.Str? then Some(v.s) else None
  }

  /** How a template literal renders a property (`${x}`). */
  function Render(v: Value): (r: string)
    ensures v.Undefined? ==> r == "undefined"
    ensures v.Null? ==> r == "null"
    ensures v.Str? ==> r == v.s
  {
    match v
    case Undefined => "undefined"
    case Null => "null"
    case Str(s) => s
  }
}

module Text {

  predicate StartsWith(s: string, prefix: string) {
    |prefix| <= |s| && s[..|prefix|] == prefix
  }

  predicate EndsWith(s: string, suffix: string) {
    |suffix| <= |s| && s[|s| - |suffix|..] == suffix
  }

  /** `s.includes(sub)`. */
  predicate Contains(s: string, sub: string)
    decreases |s|
  {
    StartsWith(s, sub) || (s != [] && Contains(s[1..], sub))
  }

  /** The occurrence of `sub` at index `i` of `s`. */
  predicate OccursAt(s: string, sub: string, i: int) {
    0 <= i && i + |sub| <= |s| && s[i..i + |sub|] == sub
  }

  lemma {:induction false} ContainsAt(s: string, sub: string)
    ensures Contains(s, sub) <==> exists i :: OccursAt(s, sub, i)
    decreases |s|
  {
    if StartsWith(s, sub) {
      assert OccursAt(s, sub, 0);
    } else if s == [] {
      assert sub != [];
    } else {
      ContainsAt(s[1..], sub);
      if exists i :: OccursAt(s[1..], sub, i) {
        var i :| OccursAt(s[1..], sub, i);
        assert s[i + 1..i + 1 + |sub|] == s[1..][i..i + |sub|];
        assert OccursAt(s, sub, i + 1);
      }
      if exists i :: OccursAt(s, sub, i) {
        var i :| OccursAt(s, sub, i);
        assert i != 0;
        assert s[1..][i - 1..i - 1 + |sub|] == s[i..i + |sub|];
        assert OccursAt(s[1..], sub, i - 1);
      }
    }
  }

  lemma OccursWithin(s: string, t: string, u: string, i: int, j: int)
    requires OccursAt(s, t, i) && OccursAt(t, u, j)
    ensures OccursAt(s, u, i + j)
  {
    forall k | 0 <= k < |u|
      ensures s[i + j + k] == u[k]
    {
      assert s[i..i + |t|][j + k] == t[j + k];
      assert t[j..j + |u|][k] == u[k];
    }
  }

  /** A string containing `t` contains everything `t` contains. */
  lemma ContainsTransitive(s: string, t: string, u: string)
    requires Contains(s, t) && Contains(t, u)
    ensures Contains(s, u)
  {
    ContainsAt(s, t);
    ContainsAt(t, u);
    var i :| OccursAt(s, t, i);
    var j :| OccursAt(t, u, j);
    OccursWithin(s, t, u, i, j);
    ContainsAt(s, u);
  }

  lemma ContainsSelf(s: string)
    ensures Contains(s, s)
  {
    assert s[..|s|] == s;
  }

  /** A string contains every string it starts with. */
  lemma ContainsPrefix(s: string, p: string)
    requires StartsWith(s, p)
    ensures Contains(s, p)
  {
  }

  /** Appending text never removes an occurrence. */
  lemma ContainsAppend(s: string, sub: string, tail: string)
    requires Contains(s, sub)
    ensures Contains(s + tail, sub)
  {
    ContainsAt(s, sub);
    var i :| OccursAt(s, sub, i);
    assert (s + tail)[i..i + |sub|] == s[i..i + |sub|];
    assert OccursAt(s + tail, sub, i);
    ContainsAt(s + tail, sub);
  }

  /** ASCII case mapping of `toLowerCase`. */
  function LowerChar(c: char): char {
    if 'A' <= c <= 'Z' then (c as int + 32) as char else c
  }

  /** `s.toLowerCase()`, restricted to the ASCII letters. */
  function Lower(s: string): (r: string)
    ensures |r| == |s|
    ensures forall i :: 0 <= i < |s| ==> r[i] == LowerChar(s[i])
  {
    seq(|s|, i requires 0 <= i < |s| => LowerChar(s[i]))
  }

  /** A string with no ASCII capital is its own lower case. */
  lemma LowerOfLower(s: string)
    requires forall i :: 0 <= i < |s| ==> !('A' <= s[i] <= 'Z')
    ensures Lower(s) == s
  {
  }

  /** The white-space characters `trim` removes: the WhiteSpace and LineTerminator
      characters of ECMAScript, that is tab, line tabulation, form feed, space, no-break
      space, the byte-order mark, the other space separators of Unicode (ogham space mark,
      U+2000 to U+200A, narrow no-break space, medium mathematical space, ideographic
      space), line feed, carriage return and the line and paragraph separators. */
  predicate IsSpace(c: char) {
    || c == ' ' || c == '\t' || c == '\n' || c == '\r' || c == '\U{000B}' || c == '\U{000C}'
    || c == '\U{00A0}' || c == '\U{1680}' || ('\U{2000}' <= c <= '\U{200A}')
    || c == '\U{2028}' || c == '\U{2029}' || c == '\U{202F}' || c == '\U{205F}'
    || c == '\U{3000}' || c == '\U{FEFF}'
  }

  function TrimStart(s: string): (r: string)
    ensures |r| <= |s| && r == s[|s| - |r|..]
    ensures r == [] || !IsSpace(r[0])
    ensures forall i :: 0 <= i < |s| - |r| ==> IsSpace(s[i])
  {
    if s != [] && IsSpace(s[0]) then TrimStart(s[1..]) else s
  }

  function TrimEnd(s: string): (r: string)
    ensures |r| <= |s| && r == s[..|r|]
    ensures r == [] || !IsSpace(r[|r| - 1])
    ensures forall i :: |r| <= i < |s| ==> IsSpace(s[i])
  {
    if s != [] && IsSpace(s[|s| - 1]) then TrimEnd(s[..|s| - 1]) else s
  }

  /** `s.trim()`: the white space at both ends removed. */
  function Trim(s: string): (r: string)
    ensures r == [] || (!IsSpace(r[0]) && !IsSpace(r[|r| - 1]))
    ensures exists i :: OccursAt(s, r, i)
  {
    var t := TrimStart(s);
    var r := TrimEnd(t);
    assert OccursAt(s, r, |s| - |t|);
    r
  }

  /** A string without white space at its ends is unchanged by `trim`. */
  lemma TrimNoSpace(s: string)
    requires s == [] || (!IsSpace(s[0]) && !IsSpace(s[|s| - 1]))
    ensures Trim(s) == s
  {
  }

  /** `trim` leaves nothing exactly when the string is all white space. */
  lemma TrimEmpty(s: string)
    ensures Trim(s) == [] <==> forall i :: 0 <= i < |s| ==> IsSpace(s[i])
  {
    var t := TrimStart(s);
    if t != [] {
      assert !IsSpace(s[|s| - |t|]);
    }
  }

  /** The prefix of `s` before the first character in `stops`. */
  function TakeUntil(s: string, stops: set<char>): (r: string)
    ensures |r| <= |s| && r == s[..|r|]
    ensures forall i :: 0 <= i < |r| ==> r[i] !in stops
    ensures |r| < |s| ==> s[|r|] in stops
  {
    if s == [] || s[0] in stops then [] else [s[0]] + TakeUntil(s[1..], stops)
  }

  /** The suffix of `s` from the first character in `stops` on. */
  function DropUntil(s: string, stops: set<char>): (r: string)
    ensures |r| <= |s| && r == s[|s| - |r|..]
    ensures r == [] || r[0] in stops
    ensures forall i :: 0 <= i < |s| - |r| ==> s[i] !in stops
  {
    if s == [] || s[0] in stops then s else DropUntil(s[1..], stops)
  }

  lemma {:induction false} TakeUntilAppend(a: string, b: string, stops: set<char>)
    requires forall i :: 0 <= i < |a| ==> a[i] !in stops
    requires b == [] || b[0] in stops
    ensures TakeUntil(a + b, stops) == a
  {
    if a != [] {
      assert (a + b)[1..] == a[1..] + b;
      TakeUntilAppend(a[1..], b, stops);
    }
  }

  lemma {:induction false} DropUntilAppend(a: string, b: string, stops: set<char>)
    requires forall i :: 0 <= i < |a| ==> a[i] !in stops
    requires b == [] || b[0] in stops
    ensures DropUntil(a + b, stops) == b
  {
    if a != [] {
      assert (a + b)[1..] == a[1..] + b;
      DropUntilAppend(a[1..], b, stops);
    } else {
      assert a + b == b;
    }
  }

  /** `s.split(" ")[0]`: everything before the first space. */
  function FirstWord(s: string): (r: string)
    ensures |r| <= |s| && r == s[..|r|]
    ensures ' ' !in r
    ensures |r| < |s| ==> s[|r|] == ' '
  {
    TakeUntil(s, {' '})
  }

  /** `s.substring(0, n)`. */
  function Prefix(s: string, n: nat): (r: string)
    ensures |r| == if n < |s| then n else |s|
    ensures r == s[..|r|]
  {
    if n < |s| then s[..n] else s
  }

  function DigitChar(d: nat): (c: char)
    requires d < 10
    ensures '0' <= c <= '9'
  {
    ('0' as int + d) as char
  }

  /** The decimal rendering of a natural number: digits only, with no leading zero. */
  function NatToString(n: nat): (r: string)
    ensures |r| >= 1
    ensures forall i :: 0 <= i < |r| ==> '0' <= r[i] <= '9'
    ensures n > 0 ==> r[0] != '0'
  {
    if n < 10 then [DigitChar(n)] else NatToString(n / 10) + [DigitChar(n % 10)]
  }

  /** The number a string of decimal digits denotes. */
  function DigitsValue(s: string): int {
    if s == [] then 0 else DigitsValue(s[..|s| - 1]) * 10 + (s[|s| - 1] as int - '0' as int)
  }

  /** Reading the rendering back gives the number. */
  lemma {:induction false} NatToStringValue(n: nat)
    ensures DigitsValue(NatToString(n)) == n
  {
    if n >= 10 {
      var r := NatToString(n);
      assert r[..|r| - 1] == NatToString(n / 10);
      NatToStringValue(n / 10);
    } else {
      assert [DigitChar(n)][..0] == [];
    }
  }

  /** The ASCII white space `classList` splits a class attribute on. */
  const ClassSpaces: set<char> := {' ', '\t', '\n', '\U{000C}', '\r'}

  /** The tokens of a class attribute (`classList`), split on ASCII white space. */
  function Words(s: string): (ws: seq<string>)
    ensures forall k :: 0 <= k < |ws| ==> ws[k] != [] && forall i :: 0 <= i < |ws[k]| ==> ws[k][i] !in ClassSpaces
    decreases |s|
  {
    if s == [] then []
    else if s[0] in ClassSpaces then Words(s[1..])
    else
      var w := TakeUntil(s, ClassSpaces);
      [w] + Words(s[|w|..])
  }

  /** Every maximal run of non-space characters of the attribute is one of its words. */
  lemma {:induction false} WordsComplete(s: string, i: nat)
    requires i < |s| && s[i] !in ClassSpaces && (i == 0 || s[i - 1] in ClassSpaces)
    ensures TakeUntil(s[i..], ClassSpaces) in Words(s)
    decreases |s|
  {
    if s[0] in ClassSpaces {
      assert s[1..][i - 1..] == s[i..];
      if i > 1 {
        assert s[1..][i - 2] == s[i - 1];
      }
      WordsComplete(s[1..], i - 1);
    } else if i > 0 {
      var w := TakeUntil(s, ClassSpaces);
      assert |w| >= 1;
      assert i - 1 >= |w|;
      var rest := s[|w|..];
      assert rest[i - |w|..] == s[i..];
      assert rest[i - |w|] == s[i];
      assert rest[i - |w| - 1] == s[i - 1];
      WordsComplete(rest, i - |w|);
    } else {
      assert s[i..] == s;
    }
  }
}
