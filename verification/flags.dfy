/**
 * The converter's five feature flags and the coercion that produces them
 * from the loosely typed `$arguments` object (convert.js:14-19, 323-329).
 */
module Flags {
  import opened Wrappers
  import opened Text

  /** An argument value as the script sees it. Numbers, `null`, `undefined`
      and objects are all `Other`: `parseBool` treats them alike. */
  datatype JsValue = Bool(b: bool) | Str(s: string) | Other

  /** The argument object, keyed by property name. */
  type Args = map<string, JsValue>

  /** The script's feature flags. */
  datatype Flags = Flags(loadBalance: bool, landing: bool, ipv6: bool, full: bool, keepAlive: bool)

  /** The spellings of "true" that `value.toLowerCase() === "true"` accepts. */
  predicate IsTrueSpelling(s: string)
  {
    && |s| == 4
    && (s[0] == 't' || s[0] == 'T')
    && (s[1] == 'r' || s[1] == 'R')
    && (s[2] == 'u' || s[2] == 'U')
    && (s[3] == 'e' || s[3] == 'E')
  }

  /**
   * parseBool: a boolean is returned as is; a string is true when its
   * lower-cased form is "true" or it is exactly "1"; anything else is false.
   */
  function ParseBool(v: JsValue): (r: bool)
    ensures r <==> v == Bool(true) || v == Str("1") || (v.Str? && IsTrueSpelling(v.s))
  {
    match v
    case Bool(b) => b
    case Str(s) =>
      LowerIsTrue(s);
      Lower(s) == "true" || s == "1"
    case Other => false
  }

  /** A string lower-cases to "true" exactly when it is one of the sixteen casings of "true". */
  lemma LowerIsTrue(s: string)
    ensures Lower(s) == "true" <==> IsTrueSpelling(s)
  {
    if IsTrueSpelling(s) {
      assert Lower(s) == [LowerChar(s[0]), LowerChar(s[1]), LowerChar(s[2]), LowerChar(s[3])];
    }
    if Lower(s) == "true" {
      assert LowerChar(s[0]) == 't' && LowerChar(s[1]) == 'r' && LowerChar(s[2]) == 'u' && LowerChar(s[3]) == 'e';
    }
  }

  /** `inArg.<key>`: a missing property reads as `undefined`. */
  function Arg(args: Args, key: string): JsValue
  {
    if key in args then args[key] else Other
  }

  /**
   * The flags read from `$arguments`, or from `{}` when the script receives
   * no arguments object at all (`None`). A flag is true only when its
   * property is present and `parseBool` accepts it.
   */
  function FlagsOf(arguments: Option<Args>): (f: Flags)
    ensures f.loadBalance <==> arguments.Some? && "loadbalance" in arguments.value && ParseBool(arguments.value["loadbalance"])
    ensures f.landing <==> arguments.Some? && "landing" in arguments.value && ParseBool(arguments.value["landing"])
    ensures f.ipv6 <==> arguments.Some? && "ipv6" in arguments.value && ParseBool(arguments.value["ipv6"])
    ensures f.full <==> arguments.Some? && "full" in arguments.value && ParseBool(arguments.value["full"])
    ensures f.keepAlive <==> arguments.Some? && "keepalive" in arguments.value && ParseBool(arguments.value["keepalive"])
  {
    var inArg := arguments.GetOr(map[]);
    Flags(
      ParseBool(Arg(inArg, "loadbalance")) || false,
      ParseBool(Arg(inArg, "landing")) || false,
      ParseBool(Arg(inArg, "ipv6")) || false,
      ParseBool(Arg(inArg, "full")) || false,
      ParseBool(Arg(inArg, "keepalive")) || false)
  }

  /** Every flag defaults to false: with no arguments, or with none of the five keys, all flags are off. */
  lemma FlagsDefaultFalse(arguments: Option<Args>)
    requires arguments.Some? ==> forall k :: k in arguments.value ==> k !in {"loadbalance", "landing", "ipv6", "full", "keepalive"}
    ensures FlagsOf(arguments) == Flags(false, false, false, false, false)
  {
  }

  /**
   * For every value: a boolean counts as itself; a string counts exactly
   * when it is "1" or lower-cases to "true" (so every casing of "true"
   * counts and nothing else spelled with letters does); a number such as
   * 1, `null` or any other non-string, non-boolean value never counts.
   */
  lemma OnlyTheString1Counts(v: JsValue)
    ensures v.Bool? ==> (ParseBool(v) <==> v.b)
    ensures v.Str? ==> (ParseBool(v) <==> v.s == "1" || Lower(v.s) == "true")
    ensures v.Other? ==> !ParseBool(v)
  {
    if v.Str? {
      LowerIsTrue(v.s);
    }
  }
}
