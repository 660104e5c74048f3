/**
 * The currency symbols (app/Enums/Symbol.php): three string-backed cases, a validator
 * and a lookup with a default. PHP's `mixed` argument is one of: a Symbol instance,
 * a string, or any other value.
 */
module Symbols {
  import opened Options

  datatype Symbol = USD | EUR | BGN

  /** The string that backs each case. */
  function Value(s: Symbol): string {
    match s
    case USD => "$"
    case EUR => "€"
    case BGN => "лв."
  }

  /** The cases in declaration order. */
  function Cases(): seq<Symbol> {
    [USD, EUR, BGN]
  }

  /** values(): the backing string of every case, in case order. */
  function Values(): (r: seq<string>)
    ensures |r| == |Cases()|
    ensures forall i :: 0 <= i < |r| ==> r[i] == Value(Cases()[i])
    ensures r == ["$", "€", "лв."]
  {
    [Value(USD), Value(EUR), Value(BGN)]
  }

  lemma EveryCaseListed()
    ensures forall s :: s in Cases()
  {
    forall s ensures s in Cases() {
      match s
      case USD => assert Cases()[0] == s;
      case EUR => assert Cases()[1] == s;
      case BGN => assert Cases()[2] == s;
    }
  }

  datatype Mixed = SymbolArg(symbol: Symbol) | StringArg(text: string) | OtherArg

  /** The first of `cases` whose backing string is exactly `v` (the loop with its early return). */
  function FindCase(cases: seq<Symbol>, v: string): (r: Option<Symbol>)
    ensures r.Some? ==> r.value in cases && Value(r.value) == v
    ensures r.None? ==> forall s :: s in cases ==> Value(s) != v
  {
    if cases == [] then None
    else if Value(cases[0]) == v then Some(cases[0])
    else FindCase(cases[1..], v)
  }

  /** isValid(v): a Symbol instance, or a string that backs some case. */
  function IsValid(v: Mixed): (b: bool)
    ensures v.SymbolArg? ==> b
    ensures v.OtherArg? ==> !b
    ensures v.StringArg? ==> (b <==> exists s :: Value(s) == v.text)
  {
    match v
    case SymbolArg(_) => true
    case OtherArg => false
    case StringArg(text) =>
      var found := FindCase(Cases(), text);
      EveryCaseListed();
      found.Some?
  }

  /** fromValue(v, default): the Symbol itself, the case backed by the string v, or the default. */
  function FromValue(v: Mixed, default: Symbol): (r: Symbol)
    ensures v.SymbolArg? ==> r == v.symbol
    ensures v.OtherArg? ==> r == default
    ensures v.StringArg? && (exists s :: Value(s) == v.text) ==> Value(r) == v.text
    ensures v.StringArg? && (forall s :: Value(s) != v.text) ==> r == default
  {
    match v
    case SymbolArg(s) => s
    case OtherArg => default
    case StringArg(text) =>
      var found := FindCase(Cases(), text);
      EveryCaseListed();
      if found.Some? then found.value else default
  }

  /** No two cases share a backing string. */
  lemma ValuesDistinct(s: Symbol, t: Symbol)
    requires Value(s) == Value(t)
    ensures s == t
  {
    assert |Value(BGN)| == 3 && Value(USD)[0] != Value(EUR)[0];
  }

  /** A string accepted by isValid is looked up to the case it spells, whatever the default. */
  lemma ValidStringFound(v: Mixed, default: Symbol)
    requires v.StringArg? && IsValid(v)
    ensures Value(FromValue(v, default)) == v.text
  {
  }

  /** Looking up the backing string of a case gives back that case. */
  lemma FromValueRoundTrip(s: Symbol, default: Symbol)
    ensures FromValue(StringArg(Value(s)), default) == s
  {
    var r := FromValue(StringArg(Value(s)), default);
    assert Value(r) == Value(s);
    ValuesDistinct(r, s);
  }
}
