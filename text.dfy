/** The string handling the stages do: `split('/', 1)` with a two-way unpack,
    `int()` of a decimal string, `str.format` with named fields, and the
    task-identifier pattern. */
module Text {
  import opened Results

  /** Position of the first `c` in `s`. */
  function IndexOf(s: string, c: char): (r: Option<nat>)
    ensures r.Some? ==> r.value < |s| && s[r.value] == c && c !in s[..r.value]
    ensures r.None? ==> c !in s
  {
    if s == [] then None
    else if s[0] == c then Some(0)
    else
      match IndexOf(s[1..], c)
      case None => None
      case Some(k) =>
        assert s[..k + 1] == [s[0]] + s[1..][..k];
        Some(k + 1)
  }

  /** `head, tail = s.split(sep, 1)`: the unpack fails when `sep` does not occur. */
  function SplitOnce(s: string, sep: char): (r: Result<(string, string)>)
    ensures r.Ok? <==> sep in s
    ensures r.Ok? ==> s == r.value.0 + [sep] + r.value.1 && sep !in r.value.0
    ensures r.Fail? ==> r.error == NothingToSplit(s)
  {
    match IndexOf(s, sep)
    case None => Fail(NothingToSplit(s))
    case Some(k) =>
      assert s == s[..k] + [sep] + s[k + 1..];
      Ok((s[..k], s[k + 1..]))
  }

  /** The first occurrence is determined by its defining property. */
  lemma {:induction false} IndexOfUnique(s: string, c: char, k: nat)
    requires k < |s| && s[k] == c && c !in s[..k]
    ensures IndexOf(s, c) == Some(k)
  {
    if k > 0 {
      assert s[0] == s[..k][0];
      assert s[1..][..k - 1] == s[..k][1..];
      IndexOfUnique(s[1..], c, k - 1);
    }
  }

  /** The split is determined by its defining property: the head is the text
      before the FIRST separator, the tail is everything after it. */
  lemma SplitOnceUnique(s: string, sep: char, head: string, tail: string)
    requires s == head + [sep] + tail && sep !in head
    ensures SplitOnce(s, sep) == Ok((head, tail))
  {
    assert s[..|head|] == head;
    IndexOfUnique(s, sep, |head|);
    assert s[|head| + 1..] == tail;
  }

  predicate IsDigit(c: char) {
    '0' <= c <= '9'
  }

  function DigitsValue(s: string): nat
    requires forall i | 0 <= i < |s| :: IsDigit(s[i])
  {
    if s == [] then 0
    else
      var d := s[|s| - 1];
      assert IsDigit(d);
      10 * DigitsValue(s[..|s| - 1]) + (d as int - '0' as int)
  }

  /** `int(s)` for a level such as "3": a non-empty run of decimal digits. */
  function ParseDecimal(s: string): (r: Option<nat>)
    ensures r.Some? <==> s != [] && forall i | 0 <= i < |s| :: IsDigit(s[i])
  {
    if s != [] && forall i | 0 <= i < |s| :: IsDigit(s[i]) then Some(DigitsValue(s)) else None
  }

  /** A decimal string has value 1 exactly when it is "1" after leading zeros. */
  lemma {:induction false} ParseDecimalOne(s: string)
    ensures ParseDecimal(s) == Some(1) <==>
            s != [] && s[|s| - 1] == '1' && forall i | 0 <= i < |s| - 1 :: s[i] == '0'
  {
    if s != [] {
      var init := s[..|s| - 1];
      if s[|s| - 1] == '1' && forall i | 0 <= i < |s| - 1 :: s[i] == '0' {
        assert forall i | 0 <= i < |init| :: init[i] == '0';
        ZerosValue(init);
        assert forall i | 0 <= i < |s| :: IsDigit(s[i]) by {
          forall i | 0 <= i < |s| ensures IsDigit(s[i]) {
            if i < |s| - 1 { assert s[i] == init[i]; }
          }
        }
        assert DigitsValue(s) == 10 * DigitsValue(init) + 1;
      }
      if ParseDecimal(s) == Some(1) {
        assert forall i | 0 <= i < |init| :: IsDigit(init[i]);
        ZeroValue(init);
      }
    }
  }

  lemma {:induction false} ZerosValue(s: string)
    requires forall i | 0 <= i < |s| :: s[i] == '0'
    ensures forall i | 0 <= i < |s| :: IsDigit(s[i])
    ensures DigitsValue(s) == 0
  {
    if s != [] {
      ZerosValue(s[..|s| - 1]);
    }
  }

  lemma {:induction false} ZeroValue(s: string)
    requires forall i | 0 <= i < |s| :: IsDigit(s[i])
    requires DigitsValue(s) == 0
    ensures forall i | 0 <= i < |s| :: s[i] == '0'
  {
    if s != [] {
      var init := s[..|s| - 1];
      assert forall i | 0 <= i < |init| :: IsDigit(init[i]);
      ZeroValue(init);
    }
  }

  /** `template.format(**fields)` for templates made of literal text, doubled
      braces and `{name}` fields. */
  function Format(template: string, fields: map<string, string>): Result<string>
    decreases |template|
  {
    if template == [] then Ok([])
    else if template[0] == '{' then
      if |template| > 1 && template[1] == '{' then
        var rest :- Format(template[2..], fields);
        Ok("{" + rest)
      else
        match IndexOf(template[1..], '}')
        case None => Fail(FormatSyntaxError(template))
        case Some(k) =>
          var name := template[1..k + 1];
          if '{' in name then Fail(FormatSyntaxError(template))
          else if name !in fields then Fail(FormatKeyError(name))
          else
            var rest :- Format(template[k + 2..], fields);
            Ok(fields[name] + rest)
    else if template[0] == '}' then
      if |template| > 1 && template[1] == '}' then
        var rest :- Format(template[2..], fields);
        Ok("}" + rest)
      else Fail(FormatSyntaxError(template))
    else
      var rest :- Format(template[1..], fields);
      Ok([template[0]] + rest)
  }

  predicate BraceFree(s: string) {
    '{' !in s && '}' !in s
  }

  /** `prefix` put in front of a successful outcome. */
  function Prefixed(prefix: string, r: Result<string>): Result<string> {
    match r
    case Ok(s) => Ok(prefix + s)
    case Fail(e) => Fail(e)
  }

  /** Literal text before the rest of a template is copied through unchanged. */
  lemma {:induction false} FormatLiteralPrefix(lit: string, rest: string, fields: map<string, string>)
    requires BraceFree(lit)
    ensures Format(lit + rest, fields) == Prefixed(lit, Format(rest, fields))
  {
    if lit != [] {
      assert (lit + rest)[0] == lit[0];
      assert (lit + rest)[1..] == lit[1..] + rest;
      FormatLiteralPrefix(lit[1..], rest, fields);
      match Format(rest, fields)
      case Ok(s) => assert [lit[0]] + (lit[1..] + s) == lit + s;
      case Fail(e) =>
    } else {
      assert lit + rest == rest;
      match Format(rest, fields)
      case Ok(s) => assert lit + s == s;
      case Fail(e) =>
    }
  }

  /** A `{name}` field at the front of a template is replaced by its value. */
  lemma FormatFieldPrefix(name: string, rest: string, fields: map<string, string>)
    requires BraceFree(name) && name in fields
    ensures Format("{" + name + "}" + rest, fields) == Prefixed(fields[name], Format(rest, fields))
  {
    var t := "{" + name + "}" + rest;
    assert t[1..] == name + "}" + rest;
    assert t[1..][..|name|] == name;
    IndexOfUnique(t[1..], '}', |name|);
    assert t[1..|name| + 1] == name;
    assert t[|name| + 2..] == rest;
  }

  /** A template without braces formats to itself. */
  lemma FormatBraceFree(s: string, fields: map<string, string>)
    requires BraceFree(s)
    ensures Format(s, fields) == Ok(s)
  {
    FormatLiteralPrefix(s, [], fields);
    assert s + [] == s;
  }

  /** `lit{name}rest`: literal text, then one field, then the rest. */
  function FieldAfter(lit: string, name: string, rest: string): string {
    lit + "{" + name + "}" + rest
  }

  /** Formatting `lit{name}rest` copies the literal, substitutes the field and
      goes on with the rest. */
  lemma FormatFieldAfter(lit: string, name: string, rest: string, fields: map<string, string>)
    requires BraceFree(lit) && BraceFree(name) && name in fields
    ensures Format(FieldAfter(lit, name, rest), fields) == Prefixed(lit + fields[name], Format(rest, fields))
  {
    assert FieldAfter(lit, name, rest) == lit + ("{" + name + "}" + rest);
    FormatLiteralPrefix(lit, "{" + name + "}" + rest, fields);
    FormatFieldPrefix(name, rest, fields);
    match Format(rest, fields)
    case Ok(s) => assert lit + (fields[name] + s) == lit + fields[name] + s;
    case Fail(_) =>
  }

  lemma FormatFieldAfterOk(lit: string, name: string, rest: string, fields: map<string, string>, s: string)
    requires BraceFree(lit) && BraceFree(name) && name in fields
    requires Format(rest, fields) == Ok(s)
    ensures Format(FieldAfter(lit, name, rest), fields) == Ok(lit + fields[name] + s)
  {
    FormatFieldAfter(lit, name, rest, fields);
  }

  /** The characters `^[a-zA-Z0-9_-]` admits. */
  predicate IdentifierChar(c: char) {
    ('a' <= c <= 'z') || ('A' <= c <= 'Z') || ('0' <= c <= '9') || c == '_' || c == '-'
  }

  /** Exactly the strings matching `^[a-zA-Z0-9_-]{1,22}$` as a whole. */
  predicate IsIdentifier(s: string) {
    1 <= |s| <= 22 && forall i | 0 <= i < |s| :: IdentifierChar(s[i])
  }
}
