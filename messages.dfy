/** Message templates and the count line shared by the packaged bot and the
    single-file bot. A template is a sequence of literal text and named
    placeholders; filling it is `str.format` with keyword arguments (or an
    f-string, whose placeholders are always bound). */
module Messages {
  import opened Wrappers
  import opened Text

  datatype Piece = Lit(text: string) | Field(key: string)

  type Template = seq<Piece>

  /** Every placeholder of `t` names one of `keys`. */
  predicate Bound(t: Template, keys: set<string>) {
    forall p :: p in t && p.Field? ==> p.key in keys
  }

  /** `t.format(**args)`: the pieces in order, each placeholder replaced by its
      argument; None when a placeholder has no argument (a KeyError). */
  function Format(t: Template, args: map<string, string>): (r: Option<string>)
    ensures r.Some? <==> Bound(t, args.Keys)
  {
    if t == [] then Some("")
    else
      var rest := Format(t[1..], args);
      assert forall p :: p in t <==> p == t[0] || p in t[1..];
      match t[0]
      case Lit(s) => if rest.Some? then Some(s + rest.value) else None
      case Field(k) => if k in args && rest.Some? then Some(args[k] + rest.value) else None
  }

  /** Each argument a template mentions occurs in the filled text. */
  lemma {:induction false} FormatShows(t: Template, args: map<string, string>, key: string)
    requires Field(key) in t && key in args && Format(t, args).Some?
    ensures Contains(Format(t, args).value, args[key])
  {
    var rest := Format(t[1..], args);
    assert Bound(t[1..], args.Keys) by {
      assert forall p :: p in t[1..] ==> p in t;
    }
    if t[0] == Field(key) {
      ContainsItself(args[key]);
      ContainsInConcat("", args[key], rest.value, args[key]);
      assert "" + args[key] + rest.value == Format(t, args).value;
    } else {
      assert Field(key) in t[1..];
      FormatShows(t[1..], args, key);
      var head := if t[0].Lit? then t[0].text else args[t[0].key];
      ContainsInConcat(head, rest.value, "", args[key]);
      assert head + rest.value + "" == Format(t, args).value;
    }
  }

  /** The line about how many fortunes the user has had. */
  datatype CountNote = FirstFortune | NthFortune(n: int)

  /** The welcome line exactly when the count is 1, otherwise the "N-th" line. */
  function NoteFor(total: int): (note: CountNote)
    ensures note == FirstFortune <==> total == 1
    ensures note != FirstFortune ==> note == NthFortune(total)
  {
    if total == 1 then FirstFortune else NthFortune(total)
  }
}
