/** `template.format(**kwargs)` for templates whose replacement fields are
    plain keyword names, the only kind the service's prompt templates use.

    The template is read left to right, as CPython's formatter does: `{{`
    and `}}` stand for one brace, `{name}` is replaced by `kwargs[name]`
    (a string, inserted as it is), and the first malformed or unresolvable
    piece ends the call with the error it raises. */
module PyFormat {

  import opened Options
  import opened Strings
  import opened Digits
  import opened Exceptions

  datatype FormatError =
      /** `KeyError`: the field names no keyword argument. */
    | MissingKey(key: string)
      /** `ValueError: Single '}' encountered in format string` */
    | SingleClose
      /** `ValueError: Single '{' encountered in format string` */
    | SingleOpen
      /** `ValueError: expected '}' before end of string` */
    | Unterminated
      /** A field this model does not interpret: automatic or numbered
          positional fields, attribute or index access, a conversion or a
          format specification. */
    | Unsupported(field: string)

  /** The text between `{` and `}` names a keyword argument: it is not
      empty, not a positional index, and has no conversion, format
      specification, attribute or index part. */
  predicate IsNamedField(f: string)
  {
    f != [] && !AllDigits(f) && forall i :: 0 <= i < |f| ==> f[i] !in "!:.[{}"
  }

  predicate NoBraces(s: string)
  {
    forall i :: 0 <= i < |s| ==> s[i] != '{' && s[i] != '}'
  }

  function Prepend(p: string, r: Result<string, FormatError>): (out: Result<string, FormatError>)
    ensures out.Ok? <==> r.Ok?
    ensures out.Ok? ==> out.value == p + r.value
    ensures out.Err? ==> out == r
  {
    if r.Ok? then Ok(p + r.value) else r
  }

  function Format(t: string, kwargs: map<string, string>): Result<string, FormatError>
    decreases |t|
  {
    if t == [] then Ok([])
    else if t[0] == '{' then
      if |t| >= 2 && t[1] == '{' then Prepend("{", Format(t[2..], kwargs))
      else
        var k := IndexOf(t[1..], '}');
        if k == |t| - 1 then
          if |t| == 1 then Err(SingleOpen) else Err(Unterminated)
        else
          var name := t[1..k + 1];
          if !IsNamedField(name) then Err(Unsupported(name))
          else if name !in kwargs then Err(MissingKey(name))
          else Prepend(kwargs[name], Format(t[k + 2..], kwargs))
    else if t[0] == '}' then
      if |t| >= 2 && t[1] == '}' then Prepend("}", Format(t[2..], kwargs)) else Err(SingleClose)
    else
      Prepend([t[0]], Format(t[1..], kwargs))
  }

  /** The exception `str.format` raises for each error. `str(KeyError(k))`
      is the key in quotes. */
  function FormatException(e: FormatError): (r: Exc)
    ensures e.MissingKey? ==> r == Exc(Foreign("KeyError"), "'" + e.key + "'")
    ensures r.kind.Foreign?
  {
    match e
    case MissingKey(k) => Exc(Foreign("KeyError"), "'" + k + "'")
    case SingleClose => Exc(Foreign("ValueError"), "Single '}' encountered in format string")
    case SingleOpen => Exc(Foreign("ValueError"), "Single '{' encountered in format string")
    case Unterminated => Exc(Foreign("ValueError"), "expected '}' before end of string")
    case Unsupported(f) => Exc(Foreign("UnsupportedField"), f)
  }

  lemma NoBracesAppend(a: string, b: string)
    requires NoBraces(a) && NoBraces(b)
    ensures NoBraces(a + b)
  {
    forall i | 0 <= i < |a + b| ensures (a + b)[i] != '{' && (a + b)[i] != '}' {
      if i < |a| {
        assert (a + b)[i] == a[i];
      } else {
        assert (a + b)[i] == b[i - |a|];
      }
    }
  }

  /** A lower-case identifier such as `email_body` is a keyword field name. */
  lemma IdentifierIsNamedField(f: string)
    requires f != [] && !IsDigit(f[0])
    requires forall i :: 0 <= i < |f| ==> f[i] == '_' || 'a' <= f[i] <= 'z'
    ensures IsNamedField(f)
  {
  }

  /** One character of literal text is copied and the scan moves on. */
  lemma FormatPlainStep(t: string, kwargs: map<string, string>)
    requires t != [] && t[0] != '{' && t[0] != '}'
    ensures Format(t, kwargs) == Prepend([t[0]], Format(t[1..], kwargs))
  {
  }

  lemma PrependAssoc(a: string, b: string, r: Result<string, FormatError>)
    ensures Prepend(a, Prepend(b, r)) == Prepend(a + b, r)
  {
    if r.Ok? {
      assert a + (b + r.value) == (a + b) + r.value;
    }
  }

  /** Text without braces passes through unchanged, followed by whatever
      the rest of the template formats to. */
  lemma {:induction false} FormatLiteralPrefix(pre: string, rest: string, kwargs: map<string, string>)
    requires NoBraces(pre)
    ensures Format(pre + rest, kwargs) == Prepend(pre, Format(rest, kwargs))
  {
    if pre == [] {
      assert pre + rest == rest;
      var r := Format(rest, kwargs);
      if r.Ok? {
        assert [] + r.value == r.value;
      }
    } else {
      var t := pre + rest;
      assert t[0] == pre[0];
      assert t[1..] == pre[1..] + rest;
      assert NoBraces(pre[1..]) by {
        forall i | 0 <= i < |pre[1..]| ensures pre[1..][i] != '{' && pre[1..][i] != '}' {
          assert pre[1..][i] == pre[i + 1];
        }
      }
      FormatPlainStep(t, kwargs);
      FormatLiteralPrefix(pre[1..], rest, kwargs);
      PrependAssoc([pre[0]], pre[1..], Format(rest, kwargs));
      assert [pre[0]] + pre[1..] == pre;
    }
  }

  /** A template without braces formats to itself, whatever the arguments. */
  lemma FormatLiteral(t: string, kwargs: map<string, string>)
    requires NoBraces(t)
    ensures Format(t, kwargs) == Ok(t)
  {
    FormatLiteralPrefix(t, [], kwargs);
    assert t + [] == t;
  }

  /** A named field is replaced by its argument, followed by the rest of
      the template; without that argument the call raises `KeyError`. */
  lemma FormatField(name: string, rest: string, kwargs: map<string, string>)
    requires IsNamedField(name)
    ensures Format("{" + name + "}" + rest, kwargs)
         == if name in kwargs then Prepend(kwargs[name], Format(rest, kwargs))
            else Err(MissingKey(name))
  {
    var t := "{" + name + "}" + rest;
    assert t[0] == '{' && t[1] == name[0] != '{';
    var body := t[1..];
    assert body == name + "}" + rest;
    forall i | 0 <= i < |name| ensures body[i] != '}' {
      assert body[i] == name[i];
    }
    IndexOfIsFirst(body, '}', |name|);
    assert t[1..|name| + 1] == name;
    assert t[|name| + 2..] == rest;
  }

  /** A template with exactly one named field and no other braces: the
      argument is spliced in verbatim, braces in it included. */
  lemma FormatOneField(pre: string, name: string, post: string, kwargs: map<string, string>)
    requires NoBraces(pre) && NoBraces(post) && IsNamedField(name)
    ensures Format(pre + "{" + name + "}" + post, kwargs)
         == if name in kwargs then Ok(pre + kwargs[name] + post) else Err(MissingKey(name))
  {
    assert pre + "{" + name + "}" + post == pre + ("{" + name + "}" + post);
    FormatLiteralPrefix(pre, "{" + name + "}" + post, kwargs);
    FormatField(name, post, kwargs);
    FormatLiteral(post, kwargs);
    if name in kwargs {
      assert pre + (kwargs[name] + post) == pre + kwargs[name] + post;
    }
  }
}
