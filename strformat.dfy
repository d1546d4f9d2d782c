/** str.format on a template whose replacement fields are plain names, as the
    prompt templates use it. A template is given as its sequence of literal
    text and fields; a field without a matching keyword raises KeyError, and
    keywords the template does not name are ignored. */
module StrFormat {
  import opened Wrappers

  datatype Piece = Lit(text: string) | Field(name: string)

  type Template = seq<Piece>

  /** The names of the template's fields. */
  function FieldNames(t: Template): set<string> {
    set k | 0 <= k < |t| && t[k].Field? :: t[k].name
  }

  /** template.format(**args) */
  function Format(t: Template, args: map<string, string>): (r: Result<string>)
    ensures r.Success? <==> FieldNames(t) <= args.Keys
    ensures r.Failure? ==> r.error.KeyError? && r.error.key in FieldNames(t) && r.error.key !in args
  {
    if t == [] then Success("")
    else
      var rest := Format(t[1..], args);
      assert FieldNames(t) == (if t[0].Field? then {t[0].name} else {}) + FieldNames(t[1..]) by {
        forall x | x in FieldNames(t) ensures x in (if t[0].Field? then {t[0].name} else {}) + FieldNames(t[1..]) {
          var k :| 0 <= k < |t| && t[k].Field? && t[k].name == x;
          if k > 0 { assert t[1..][k - 1] == t[k]; }
        }
        forall x | x in FieldNames(t[1..]) ensures x in FieldNames(t) {
          var k :| 0 <= k < |t[1..]| && t[1..][k].Field? && t[1..][k].name == x;
          assert t[k + 1] == t[1..][k];
        }
      }
      match t[0]
      case Lit(s) => if rest.Success? then Success(s + rest.value) else rest
      case Field(n) =>
        if n !in args then Failure(KeyError(n))
        else if rest.Success? then Success(args[n] + rest.value) else rest
  }

  /** Only the keywords the template names matter. */
  lemma {:induction false} FormatIgnoresExtra(t: Template, a: map<string, string>, b: map<string, string>)
    requires forall n :: n in FieldNames(t) ==> (n in a <==> n in b) && (n in a ==> a[n] == b[n])
    ensures Format(t, a) == Format(t, b)
  {
    if t != [] {
      forall n | n in FieldNames(t[1..]) ensures n in FieldNames(t) {
        var k :| 0 <= k < |t[1..]| && t[1..][k].Field? && t[1..][k].name == n;
        assert t[k + 1] == t[1..][k];
      }
      FormatIgnoresExtra(t[1..], a, b);
      assert t[0].Field? ==> t[0].name in FieldNames(t);
    }
  }

  /** The fields after the first piece are fields of the template, and a
      first piece that is a field is one of them. */
  lemma FieldNamesTail(t: Template)
    requires t != []
    ensures FieldNames(t[1..]) <= FieldNames(t)
    ensures t[0].Field? ==> t[0].name in FieldNames(t)
  {
    forall n | n in FieldNames(t[1..]) ensures n in FieldNames(t) {
      var k :| 0 <= k < |t[1..]| && t[1..][k].Field? && t[1..][k].name == n;
      assert t[k + 1] == t[1..][k];
    }
  }

  /** The formatted text is the template with every field replaced by its
      keyword's value. */
  function Fill(t: Template, args: map<string, string>): string
    requires FieldNames(t) <= args.Keys
  {
    if t == [] then ""
    else
      FieldNamesTail(t);
      (match t[0] case Lit(s) => s case Field(n) => args[n]) + Fill(t[1..], args)
  }

  /** Filling takes the pieces one at a time. */
  lemma FillStep(t: Template, args: map<string, string>)
    requires t != [] && FieldNames(t) <= args.Keys
    ensures FieldNames(t[1..]) <= args.Keys
    ensures t[0].Field? ==> t[0].name in args
    ensures Fill(t, args) == (if t[0].Lit? then t[0].text else args[t[0].name]) + Fill(t[1..], args)
  {
    FieldNamesTail(t);
  }

  lemma {:induction false} FormatFills(t: Template, args: map<string, string>)
    requires FieldNames(t) <= args.Keys
    ensures Format(t, args) == Success(Fill(t, args))
  {
    if t != [] {
      FieldNamesTail(t);
      FormatFills(t[1..], args);
    }
  }
}
