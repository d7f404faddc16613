/**
 * An abstract model of the I18n backend that `translate.rb` hands its
 * fallback lists to: a dictionary from full keys to templates; a lookup
 * that tries the primary key, then each default in order (a symbol default
 * is looked up as a key, a string default is returned as it is); and
 * `%{name}` substitution from the interpolation values.
 */
module I18n {
  import opened Wrappers
  import opened Text

  /** One element of a fallback list: a Ruby Symbol (a key) or a String (a literal). */
  datatype Entry = Key(name: string) | Literal(text: string) {
    /** The text of the entry when it is passed as the key of a lookup. */
    function KeyName(): string {
      match this
      case Key(k) => k
      case Literal(t) => t
    }
  }

  type Store = map<string, string>

  /** Whether `e` gives a value in `store`: a literal always does. */
  predicate Resolves(store: Store, e: Entry) {
    e.Literal? || e.name in store
  }

  function Resolved(store: Store, e: Entry): string
    requires Resolves(store, e)
  {
    match e
    case Key(k) => store[k]
    case Literal(t) => t
  }

  /** The template of the first entry of `chain` that resolves. */
  function Lookup(store: Store, chain: seq<Entry>): (r: Option<string>)
    ensures r.None? <==> forall i | 0 <= i < |chain| :: !Resolves(store, chain[i])
    ensures r.Some? ==> exists i | 0 <= i < |chain| :: Resolves(store, chain[i]) && r.value == Resolved(store, chain[i])
    decreases |chain|
  {
    if chain == [] then None
    else if Resolves(store, chain[0]) then Some(Resolved(store, chain[0]))
    else
      var r := Lookup(store, chain[1..]);
      assert forall i | 1 <= i < |chain| :: chain[i] == chain[1..][i - 1];
      r
  }

  /** The index of the first `c` in `s`. */
  function IndexOf(s: string, c: char): (r: Option<nat>)
    ensures r.Some? ==> r.value < |s| && s[r.value] == c && c !in s[..r.value]
    ensures r.None? ==> c !in s
    decreases |s|
  {
    if s == [] then None
    else if s[0] == c then Some(0)
    else match IndexOf(s[1..], c)
      case Some(j) =>
        assert s[..j + 1] == [s[0]] + s[1..][..j];
        Some(j + 1)
      case None =>
        assert s == [s[0]] + s[1..];
        None
  }

  /** `IndexOf` finds the first occurrence. */
  lemma IndexOfAt(s: string, c: char, j: nat)
    requires j < |s| && s[j] == c && c !in s[..j]
    ensures IndexOf(s, c) == Some(j)
  {
  }

  /** The placeholder `%{name}`. */
  function Placeholder(name: string): (r: string)
    ensures |r| == |name| + 3
  {
    "%{" + name + "}"
  }

  /**
   * `%{name}` substitution: each placeholder whose name has a value is
   * replaced by it; substituted values are not scanned again; any other
   * text, including a placeholder without a value, is copied.
   */
  function Interpolate(t: string, values: map<string, string>): string
    decreases |t|
  {
    if t == [] then ""
    else if |t| >= 2 && t[0] == '%' && t[1] == '{' then
      match IndexOf(t[2..], '}')
      case Some(j) =>
        if t[2..2 + j] in values then values[t[2..2 + j]] + Interpolate(t[3 + j..], values)
        else [t[0]] + Interpolate(t[1..], values)
      case None => [t[0]] + Interpolate(t[1..], values)
    else [t[0]] + Interpolate(t[1..], values)
  }

  /** The text `I18n.translate` gives back for a key that resolves nowhere. */
  function MissingTranslation(key: string): string {
    "translation missing: " + key
  }

  /**
   * `I18n.translate(key, :default => defaults, values...)`: the key first,
   * then each default, and the template found is interpolated.
   */
  function Translate(store: Store, key: string, defaults: seq<Entry>, values: map<string, string>): string {
    match Lookup(store, [Key(key)] + defaults)
    case Some(t) => Interpolate(t, values)
    case None => MissingTranslation(key)
  }

  /**
   * A translated key gives its own template; an untranslated one gives the
   * first default that resolves, and the missing-translation text when none does.
   */
  lemma TranslateKeyFirst(store: Store, key: string, defaults: seq<Entry>, values: map<string, string>)
    ensures key in store ==> Translate(store, key, defaults, values) == Interpolate(store[key], values)
    ensures key !in store ==>
              Translate(store, key, defaults, values)
                == match Lookup(store, defaults)
                   case Some(t) => Interpolate(t, values)
                   case None => MissingTranslation(key)
  {
    var chain := [Key(key)] + defaults;
    assert chain[0] == Key(key);
    assert chain[1..] == defaults;
  }

  /** The first entry of the chain that resolves gives the template: an earlier key wins. */
  lemma {:induction false} LookupFirstMatch(store: Store, chain: seq<Entry>, i: nat)
    requires i < |chain| && Resolves(store, chain[i])
    requires forall j | 0 <= j < i :: !Resolves(store, chain[j])
    ensures Lookup(store, chain) == Some(Resolved(store, chain[i]))
    decreases i
  {
    if i > 0 {
      assert !Resolves(store, chain[0]);
      LookupFirstMatch(store, chain[1..], i - 1);
    }
  }

  /** Looking up in a concatenation: the first part decides when anything in it resolves. */
  lemma {:induction false} LookupAppend(store: Store, a: seq<Entry>, b: seq<Entry>)
    ensures Lookup(store, a + b) == if Lookup(store, a).Some? then Lookup(store, a) else Lookup(store, b)
    decreases |a|
  {
    if a == [] {
      assert a + b == b;
    } else {
      LookupAppend(store, a[1..], b);
      assert (a + b)[0] == a[0];
      assert (a + b)[1..] == a[1..] + b;
    }
  }

  /** A literal always resolves, so nothing after it is ever reached. */
  lemma LookupStopsAtLiteral(store: Store, prefix: seq<Entry>, t: string, rest: seq<Entry>)
    ensures Lookup(store, prefix + [Literal(t)] + rest) == Lookup(store, prefix + [Literal(t)])
    ensures Lookup(store, prefix + [Literal(t)]).Some?
  {
    var front := prefix + [Literal(t)];
    assert Resolves(store, front[|prefix|]);
    LookupAppend(store, front, rest);
  }

  /** With no interpolation values a template comes back unchanged. */
  lemma {:induction false} InterpolateNoValues(t: string)
    ensures Interpolate(t, map[]) == t
    decreases |t|
  {
    if t != [] {
      InterpolateNoValues(t[1..]);
      assert t == [t[0]] + t[1..];
    }
  }

  /** A placeholder whose name has a value is replaced by that value. */
  lemma InterpolatePlaceholder(name: string, rest: string, values: map<string, string>)
    requires name in values && '}' !in name
    ensures Interpolate(Placeholder(name) + rest, values) == values[name] + Interpolate(rest, values)
  {
    var t := Placeholder(name) + rest;
    assert t[2..] == name + "}" + rest;
    var j := |name|;
    var u := t[2..];
    assert u[..j] == name && u[j] == '}';
    IndexOfAt(u, '}', j);
    assert t[0] == '%' && t[1] == '{';
    assert t[2..2 + j] == name;
    assert t[3 + j..] == rest;
  }

  /** Text other than a placeholder is copied. */
  lemma InterpolatePlain(c: char, rest: string, values: map<string, string>)
    requires c != '%'
    ensures Interpolate([c] + rest, values) == [c] + Interpolate(rest, values)
  {
    assert ([c] + rest)[1..] == rest;
  }

  /** `%{a}` becomes the value of `a`. */
  lemma InterpolateOne(a: string, values: map<string, string>)
    requires a in values && '}' !in a
    ensures Interpolate(Placeholder(a), values) == values[a]
  {
    InterpolatePlaceholder(a, "", values);
    assert Placeholder(a) + "" == Placeholder(a);
  }

  /** `%{a} %{b}` becomes the value of `a`, a space and the value of `b`. */
  lemma InterpolateTwo(a: string, b: string, values: map<string, string>)
    requires a in values && '}' !in a && b in values && '}' !in b
    ensures Interpolate(Placeholder(a) + " " + Placeholder(b), values) == values[a] + " " + values[b]
  {
    var tail := Placeholder(b);
    assert Placeholder(a) + " " + tail == Placeholder(a) + ([' '] + tail);
    InterpolatePlaceholder(a, [' '] + tail, values);
    InterpolatePlain(' ', tail, values);
    InterpolateOne(b, values);
  }
}
