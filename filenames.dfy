/**
 * `file_for`: the name of the chat log or history file, from the command-line
 * option or else the environment variable, with `%s` (seconds since the epoch),
 * `%m` (the model) and `%%` (a literal '%') expanded.  The clock reading and
 * the variable's value are parameters.
 */
module FileNames {
  import opened Json

  function Digit(d: nat): (c: char)
    requires d < 10
    ensures '0' <= c <= '9'
  {
    "0123456789"[d]
  }

  /** The decimal form of a number, as `format!("{}", n)` writes it. */
  function Decimal(n: nat): (r: string)
    ensures |r| >= 1
    decreases n
  {
    if n < 10 then [Digit(n)] else Decimal(n / 10) + [Digit(n % 10)]
  }

  /** The decimal form is made of digits only, so it never contains a specifier. */
  lemma {:induction false} DecimalDigits(n: nat)
    ensures forall i :: 0 <= i < |Decimal(n)| ==> '0' <= Decimal(n)[i] <= '9'
    decreases n
  {
    if n >= 10 {
      DecimalDigits(n / 10);
    }
  }

  /** What a '%' followed by `c` becomes; an unknown specifier is kept as written. */
  function Escape(c: char, model: string, secs: nat): string {
    if c == 's' then Decimal(secs)
    else if c == 'm' then model
    else if c == '%' then "%"
    else ['%', c]
  }

  /** The expansion of a file name template. */
  function Expand(s: string, model: string, secs: nat): string
    decreases |s|
  {
    if s == [] then ""
    else if s[0] != '%' then [s[0]] + Expand(s[1..], model, secs)
    else AfterPercent(s[1..], model, secs)
  }

  /** The expansion of what follows a '%'; a '%' that ends the template is dropped. */
  function AfterPercent(s: string, model: string, secs: nat): string
    decreases |s|
  {
    if s == [] then "" else Escape(s[0], model, secs) + Expand(s[1..], model, secs)
  }

  /** What the rest of the template expands to, given the previous character. */
  function Remaining(prev: char, s: string, model: string, secs: nat): string {
    if prev == '%' then AfterPercent(s, model, secs) else Expand(s, model, secs)
  }

  /** After a '%', the next character is a specifier. */
  lemma AdvanceSpecifier(before: string, rest: string, model: string, secs: nat)
    requires rest != []
    ensures before + AfterPercent(rest, model, secs) == (before + Escape(rest[0], model, secs)) + Expand(rest[1..], model, secs)
  {
    var e, tail := Escape(rest[0], model, secs), Expand(rest[1..], model, secs);
    assert AfterPercent(rest, model, secs) == e + tail;
    assert before + (e + tail) == (before + e) + tail;
  }

  /** A character other than '%' is kept as it is. */
  lemma AdvanceLiteral(before: string, rest: string, model: string, secs: nat)
    requires rest != [] && rest[0] != '%'
    ensures before + Expand(rest, model, secs) == (before + [rest[0]]) + Expand(rest[1..], model, secs)
  {
    var tail := Expand(rest[1..], model, secs);
    assert Expand(rest, model, secs) == [rest[0]] + tail;
    assert before + ([rest[0]] + tail) == (before + [rest[0]]) + tail;
  }

  /** A '%' writes nothing yet and waits for the next character. */
  lemma AdvancePercent(rest: string, model: string, secs: nat)
    requires rest != [] && rest[0] == '%'
    ensures Expand(rest, model, secs) == AfterPercent(rest[1..], model, secs)
  {
  }

  /** The loop of `file_for`, which remembers the previous character in `prev`. */
  method ExpandTemplate(s: string, model: string, secs: nat) returns (expanded: string)
    ensures expanded == Expand(s, model, secs)
  {
    expanded := "";
    var prev := ' ';
    for i := 0 to |s|
      invariant Expand(s, model, secs) == expanded + Remaining(prev, s[i..], model, secs)
    {
      var c := s[i];
      ghost var rest := s[i..];
      assert rest[0] == c && rest[1..] == s[i + 1..];
      if prev == '%' {
        AdvanceSpecifier(expanded, rest, model, secs);
        expanded := expanded + Escape(c, model, secs);
        prev := ' ';
      } else {
        prev := c;
        if c != '%' {
          AdvanceLiteral(expanded, rest, model, secs);
          expanded := expanded + [c];
        } else {
          AdvancePercent(rest, model, secs);
        }
      }
    }
  }

  /** `file_for(co, env_var, option)`: the option if given, otherwise the variable's value;
      no name when neither is set or when the expansion is empty. */
  method FileFor(option: Option<string>, envValue: Option<string>, model: string, secs: nat) returns (r: Option<string>)
    ensures option.Some? ==> r == NameFrom(option.value, model, secs)
    ensures option.None? && envValue.Some? ==> r == NameFrom(envValue.value, model, secs)
    ensures option.None? && envValue.None? ==> r.None?
  {
    var template := if option.Some? then option else envValue;
    if template.None? {
      return None;
    }
    var expanded := ExpandTemplate(template.value, model, secs);
    if expanded != "" {
      r := Some(expanded);
    } else {
      r := None;
    }
  }

  /** The name a template gives: its expansion, unless that is empty. */
  function NameFrom(template: string, model: string, secs: nat): (r: Option<string>)
    ensures r.Some? ==> r.value == Expand(template, model, secs) && r.value != ""
    ensures r.None? <==> Expand(template, model, secs) == ""
  {
    var expanded := Expand(template, model, secs);
    if expanded != "" then Some(expanded) else None
  }

  /** A template without '%' names itself. */
  lemma {:induction false} ExpandPlain(s: string, model: string, secs: nat)
    requires forall i :: 0 <= i < |s| ==> s[i] != '%'
    ensures Expand(s, model, secs) == s
    decreases |s|
  {
    if s != [] {
      ExpandPlain(s[1..], model, secs);
    }
  }

  /** A name written with every '%' doubled. */
  function Quote(s: string): (r: string)
    ensures |r| >= |s|
    decreases |s|
  {
    if s == [] then ""
    else if s[0] == '%' then "%%" + Quote(s[1..])
    else [s[0]] + Quote(s[1..])
  }

  /** `%%` is a literal '%': expanding a quoted name gives the name back, whatever the model
      and the clock. */
  lemma {:induction false} ExpandQuote(s: string, model: string, secs: nat)
    ensures Expand(Quote(s), model, secs) == s
    decreases |s|
  {
    if s != [] {
      ExpandQuote(s[1..], model, secs);
      var q := Quote(s);
      if s[0] == '%' {
        assert q[0] == '%' && q[1] == '%' && q[2..] == Quote(s[1..]);
      } else {
        assert q[0] == s[0] && q[1..] == Quote(s[1..]);
      }
    }
  }

  /** Expansion distributes over a split after a whole number of specifiers. */
  lemma {:induction false} ExpandAppend(a: string, b: string, model: string, secs: nat)
    requires Balanced(a)
    ensures Expand(a + b, model, secs) == Expand(a, model, secs) + Expand(b, model, secs)
    decreases |a|
  {
    if a == [] {
      assert a + b == b;
    } else if a[0] != '%' {
      assert (a + b)[1..] == a[1..] + b;
      ExpandAppend(a[1..], b, model, secs);
    } else {
      assert (a + b)[2..] == a[2..] + b;
      ExpandAppend(a[2..], b, model, secs);
    }
  }

  /** Every '%' in the template starts a complete two-character specifier. */
  predicate Balanced(s: string)
    decreases |s|
  {
    if s == [] then true
    else if s[0] != '%' then Balanced(s[1..])
    else |s| >= 2 && Balanced(s[2..])
  }

  /** With a named model, a template gives no file name exactly when it is empty or a lone
      '%'; every other template names a file. */
  lemma ExpandEmptyIff(s: string, model: string, secs: nat)
    requires model != ""
    ensures Expand(s, model, secs) == "" <==> s == "" || s == "%"
  {
    if s != [] && s[0] == '%' && |s| >= 2 {
      assert s[1..][0] == s[1];
      assert |Escape(s[1], model, secs)| >= 1;
    }
  }

  /** A specifier followed by the rest of a template. */
  lemma ExpandSpecifier(c: char, rest: string, model: string, secs: nat)
    ensures Expand(['%', c] + rest, model, secs) == Escape(c, model, secs) + Expand(rest, model, secs)
  {
    var t := ['%', c] + rest;
    assert t[0] == '%' && t[1..][0] == c && t[1..][1..] == rest;
  }

  /** A plain character followed by the rest of a template. */
  lemma ExpandLiteral(c: char, rest: string, model: string, secs: nat)
    requires c != '%'
    ensures Expand([c] + rest, model, secs) == [c] + Expand(rest, model, secs)
  {
    var t := [c] + rest;
    assert t[0] == c && t[1..] == rest;
  }

  /** The specifiers of the usage text: a log name built from the model, a dash, the clock
      and an extension without '%'. */
  lemma ExpandExample(model: string, secs: nat, extension: string)
    requires forall i :: 0 <= i < |extension| ==> extension[i] != '%'
    ensures Expand(['%', 'm', '-', '%', 's'] + extension, model, secs) == model + "-" + Decimal(secs) + extension
  {
    var digits := Decimal(secs);
    ExpandPlain(extension, model, secs);
    var t := ['%', 's'] + extension;
    ExpandSpecifier('s', extension, model, secs);
    assert Expand(t, model, secs) == digits + extension;
    var u := ['-'] + t;
    ExpandLiteral('-', t, model, secs);
    assert Expand(u, model, secs) == "-" + (digits + extension);
    assert ['%', 'm', '-', '%', 's'] + extension == ['%', 'm'] + u;
    ExpandSpecifier('m', u, model, secs);
    assert Expand(['%', 'm'] + u, model, secs) == model + ("-" + (digits + extension));
  }
}
