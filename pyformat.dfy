/** `str.format` called with a single keyword argument, as the bot calls it on
    its prompt template: `{{` and `}}` stand for literal braces, a lone `}` is
    an error (ValueError), and a replacement field `{name}` is replaced by the
    argument's text when `name` is the keyword; any other name raises
    KeyError. An error is `None`. */
module PyFormat {
  import opened Wrappers

  /** `s` holds no brace, so `str.format` copies it unchanged. */
  predicate Plain(s: string)
  {
    forall k :: 0 <= k < |s| ==> s[k] != '{' && s[k] != '}'
  }

  /** The text `p` in front of a formatting result, or the error it was. */
  function PrefixWith(p: string, r: Option<string>): Option<string>
  {
    match r
    case None => None
    case Some(s) => Some(p + s)
  }

  /** Text put in front in two steps is the two texts put in front at once. */
  lemma PrefixWithJoin(p: string, q: string, r: Option<string>)
    ensures PrefixWith(p, PrefixWith(q, r)) == PrefixWith(p + q, r)
  {
    if r.Some? {
      assert p + (q + r.value) == p + q + r.value;
    }
  }

  /** Where a replacement field ends: the index in `t` of the `}` that closes
      a field with `depth` braces still open, inner braces counted in pairs
      (`"{0:{1}}"` has one field). `None` when the field is not closed, which
      Python reports as "expected '}' before end of string". */
  function FieldEnd(t: string, depth: nat): (r: Option<nat>)
    requires depth > 0
    ensures r.Some? ==> r.value < |t| && t[r.value] == '}'
    decreases |t|
  {
    if t == [] then None
    else if t[0] == '}' && depth == 1 then Some(0)
    else
      var d := if t[0] == '{' then depth + 1 else if t[0] == '}' then depth - 1 else depth;
      match FieldEnd(t[1..], d)
      case None => None
      case Some(j) => Some(j + 1)
  }

  /** `t.format(**{key: value})`. */
  function Format(t: string, key: string, value: string): Option<string>
    decreases |t|
  {
    if t == [] then Some([])
    else if t[0] == '{' && |t| > 1 && t[1] == '{' then PrefixWith("{", Format(t[2..], key, value))
    else if t[0] == '{' then
      match FieldEnd(t[1..], 1)
      case None => None
      case Some(j) =>
        if t[1..j + 1] == key then PrefixWith(value, Format(t[j + 2..], key, value)) else None
    else if t[0] == '}' && |t| > 1 && t[1] == '}' then PrefixWith("}", Format(t[2..], key, value))
    else if t[0] == '}' then None
    else PrefixWith([t[0]], Format(t[1..], key, value))
  }

  /** `s` with every brace doubled, so that `str.format` reads it as literal text. */
  function Escape(s: string): (r: string)
    ensures |r| >= |s|
  {
    if s == [] then []
    else if s[0] == '{' || s[0] == '}' then [s[0], s[0]] + Escape(s[1..])
    else [s[0]] + Escape(s[1..])
  }

  /** Brace-free text is copied through. */
  lemma {:induction false} FormatPlain(a: string, rest: string, key: string, value: string)
    requires Plain(a)
    ensures Format(a + rest, key, value) == PrefixWith(a, Format(rest, key, value))
    decreases |a|
  {
    if a == [] {
      assert a + rest == rest;
      match Format(rest, key, value)
      case None =>
      case Some(s) => assert a + s == s;
    } else {
      var t := a + rest;
      assert t[0] == a[0] && t[1..] == a[1..] + rest;
      FormatPlain(a[1..], rest, key, value);
      PrefixWithJoin([a[0]], a[1..], Format(rest, key, value));
      assert [a[0]] + a[1..] == a;
    }
  }

  /** Escaped text formats back to itself: `Escape` is the inverse of the
      literal-text part of `str.format`. */
  lemma {:induction false} FormatEscaped(s: string, rest: string, key: string, value: string)
    ensures Format(Escape(s) + rest, key, value) == PrefixWith(s, Format(rest, key, value))
    decreases |s|
  {
    if s == [] {
      assert Escape(s) + rest == rest;
      match Format(rest, key, value)
      case None =>
      case Some(x) => assert s + x == x;
    } else {
      var e := Escape(s[1..]) + rest;
      FormatEscaped(s[1..], rest, key, value);
      PrefixWithJoin([s[0]], s[1..], Format(rest, key, value));
      assert [s[0]] + s[1..] == s;
      if s[0] == '{' || s[0] == '}' {
        var t := [s[0], s[0]] + e;
        assert Escape(s) + rest == t;
        assert t[0] == s[0] && t[1] == s[0] && t[2..] == e;
      } else {
        var t := [s[0]] + e;
        assert Escape(s) + rest == t;
        assert t[0] == s[0] && t[1..] == e;
      }
    }
  }

  /** A brace-free field name followed by `}` is one field ending at that `}`. */
  lemma {:induction false} FieldEndPlain(name: string, rest: string)
    requires Plain(name)
    ensures FieldEnd(name + "}" + rest, 1) == Some(|name|)
    decreases |name|
  {
    var t := name + "}" + rest;
    if name == [] {
      assert t[0] == '}';
    } else {
      assert t[0] == name[0] && t[1..] == name[1..] + "}" + rest;
      FieldEndPlain(name[1..], rest);
    }
  }

  /** The field `{key}` is replaced by the argument. */
  lemma FormatField(key: string, rest: string, value: string)
    requires |key| > 0 && Plain(key)
    ensures Format("{" + key + "}" + rest, key, value) == PrefixWith(value, Format(rest, key, value))
  {
    var t := "{" + key + "}" + rest;
    assert t[1..] == key + "}" + rest;
    FieldEndPlain(key, rest);
    assert t[0] == '{' && t[1] == key[0];
    assert t[1..|key| + 1] == key;
    assert t[|key| + 2..] == rest;
  }

  /** A template that escapes its literal text and names the keyword in its one
      field formats to the literal text with the argument in place of the field. */
  lemma EscapedTemplate(s: string, key: string, value: string, r: string)
    requires |key| > 0 && Plain(key)
    ensures Format(Escape(s) + ("{" + key + "}" + Escape(r)), key, value) == Some(s + value + r)
  {
    FormatEscaped(s, "{" + key + "}" + Escape(r), key, value);
    FormatField(key, Escape(r), value);
    FormatEscaped(r, [], key, value);
    assert Escape(r) + [] == Escape(r);
    assert s + (value + (r + [])) == s + value + r;
  }

  /** A lone `{` opens a field; when what follows it is neither a brace nor the
      keyword's first character, the field names something else and
      formatting raises (KeyError), or the field never closes (ValueError). */
  lemma FormatUnknownField(a: string, b: string, key: string, value: string)
    requires Plain(a) && |key| > 0
    requires |b| > 0 && b[0] != '{' && b[0] != '}' && b[0] != key[0]
    ensures Format(a + ("{" + b), key, value) == None
  {
    FormatPlain(a, "{" + b, key, value);
    var t := "{" + b;
    assert t[0] == '{' && t[1] == b[0] && t[1..] == b;
    match FieldEnd(b, 1)
    case None =>
    case Some(j) =>
      assert j > 0;
      assert t[1..j + 1][0] == b[0];
  }
}
