/**
 * The construction of a Pig player: the argument checks of
 * `PigPlayer.__init__`, run in a fixed order, each raising ValueError or
 * TypeError, followed by the storing of the accepted arguments as the
 * player's fields.
 */
module PigMaster {
  import opened Wrappers
  import opened Values

  /** The exception kinds the constructor raises. */
  datatype ErrKind = ValueError | TypeError

  /** The three strategies a player may follow. */
  datatype Strategy = Random | Hold | Learn

  /** The constructor's arguments, as the caller passed them. */
  datatype Args = Args(
    name: Value,
    writeTo: Value,
    strategy: Value,
    holdAt: Value,
    holdP: Value,
    learnFrom: Value,
    printPlayerInfo: Value)

  /** What a constructed player holds. `holdAt` stays the value passed (a bool stays a bool). */
  datatype Config = Config(
    name: string,
    writeTo: string,
    strategy: Strategy,
    holdAt: Value,
    holdP: PyFloat,
    learnFrom: seq<string>)

  /** The constructor's default arguments. */
  function DefaultArgs(): Args {
    Args(Str("peppa"), Str(""), Str("random"), Int(20), Float(Finite(0.2)), List([]), Bool(true))
  }

  /** The tag by which the caller names a strategy. */
  function StrategyName(st: Strategy): string {
    match st
    case Random => "random"
    case Hold => "hold"
    case Learn => "learn"
  }

  /** `strategy in ['random', 'hold', 'learn']`, giving the strategy it names. */
  function StrategyOf(v: Value): (r: Option<Strategy>)
    ensures r.Some? ==> v == Str(StrategyName(r.value))
    ensures r.None? <==> forall st: Strategy :: v != Str(StrategyName(st))
  {
    if v == Str("random") then Some(Random)
    else if v == Str("hold") then Some(Hold)
    else if v == Str("learn") then Some(Learn)
    else None
  }

  // The seven checks, each true when the argument passes it.

  predicate NameOk(v: Value) {
    v.Str? && v.s != ""
  }

  predicate WriteToOk(v: Value) {
    v.Str?
  }

  predicate StrategyOk(v: Value) {
    StrategyOf(v).Some?
  }

  /** The comparisons run only on an int, as Python's `or` stops at the first true operand. */
  predicate HoldAtOk(v: Value) {
    IsInt(v) && !Less(v, 1) && !Greater(v, 100)
  }

  predicate HoldPOk(v: Value) {
    IsNumber(v) && !Less(v, 0) && !Greater(v, 1)
  }

  predicate LearnFromOk(v: Value) {
    v.List? && AllStrings(v.items)
  }

  predicate PrintInfoOk(v: Value) {
    v.Bool?
  }

  /** One check of the constructor: whether it passed, and what it raises when it does not. */
  datatype Check = Check(passed: bool, raises: ErrKind)

  /** The constructor's checks, in the order it runs them. */
  function Checks(a: Args): seq<Check> {
    [ Check(NameOk(a.name), ValueError),
      Check(WriteToOk(a.writeTo), TypeError),
      Check(StrategyOk(a.strategy), ValueError),
      Check(HoldAtOk(a.holdAt), ValueError),
      Check(HoldPOk(a.holdP), ValueError),
      Check(LearnFromOk(a.learnFrom), ValueError),
      Check(PrintInfoOk(a.printPlayerInfo), TypeError) ]
  }

  /** Check `i` is the first one that fails. */
  predicate FirstFailingAt(cs: seq<Check>, i: nat)
    requires i < |cs|
  {
    !cs[i].passed && forall j :: 0 <= j < i ==> cs[j].passed
  }

  /** What running the checks in order raises: the error of the first failing one, if any. */
  function FirstFailure(cs: seq<Check>): (r: Option<ErrKind>)
    ensures r.None? <==> forall i :: 0 <= i < |cs| ==> cs[i].passed
    ensures r.Some? ==> exists i :: 0 <= i < |cs| && FirstFailingAt(cs, i) && r.value == cs[i].raises
  {
    if cs == [] then None
    else if !cs[0].passed then
      assert FirstFailingAt(cs, 0);
      Some(cs[0].raises)
    else
      var r := FirstFailure(cs[1..]);
      assert r.Some? ==> exists i :: 0 < i < |cs| && FirstFailingAt(cs, i) && r.value == cs[i].raises by {
        if r.Some? {
          var k :| 0 <= k < |cs| - 1 && FirstFailingAt(cs[1..], k) && r.value == cs[1..][k].raises;
          assert FirstFailingAt(cs, k + 1);
        }
      }
      r
  }

  /** Running the check table of `a` in order, spelled out one check at a time. */
  lemma RunChecks(a: Args)
    ensures (forall i :: 0 <= i < |Checks(a)| ==> Checks(a)[i].passed) <==>
      NameOk(a.name) && WriteToOk(a.writeTo) && StrategyOk(a.strategy) && HoldAtOk(a.holdAt) &&
      HoldPOk(a.holdP) && LearnFromOk(a.learnFrom) && PrintInfoOk(a.printPlayerInfo)
    ensures FirstFailure(Checks(a)) ==
      if !NameOk(a.name) then Some(ValueError)
      else if !WriteToOk(a.writeTo) then Some(TypeError)
      else if !StrategyOk(a.strategy) then Some(ValueError)
      else if !HoldAtOk(a.holdAt) then Some(ValueError)
      else if !HoldPOk(a.holdP) then Some(ValueError)
      else if !LearnFromOk(a.learnFrom) then Some(ValueError)
      else if !PrintInfoOk(a.printPlayerInfo) then Some(TypeError)
      else None
  {
    var cs := Checks(a);
    assert cs[0] == Check(NameOk(a.name), ValueError);
    assert cs[1..][0] == Check(WriteToOk(a.writeTo), TypeError);
    assert cs[2..][0] == Check(StrategyOk(a.strategy), ValueError);
    assert cs[3..][0] == Check(HoldAtOk(a.holdAt), ValueError);
    assert cs[4..][0] == Check(HoldPOk(a.holdP), ValueError);
    assert cs[5..][0] == Check(LearnFromOk(a.learnFrom), ValueError);
    assert cs[6..][0] == Check(PrintInfoOk(a.printPlayerInfo), TypeError);
    assert cs[1..][1..] == cs[2..] && cs[2..][1..] == cs[3..] && cs[3..][1..] == cs[4..];
    assert cs[4..][1..] == cs[5..] && cs[5..][1..] == cs[6..] && cs[6..][1..] == [];
  }

  /** The accepted configurations: a non-empty name, an int in [1, 100], a float in [0, 1] or NaN. */
  predicate ValidConfig(c: Config) {
    && c.name != ""
    && IsInt(c.holdAt) && 1 <= IntOf(c.holdAt) <= 100
    && ((c.holdP.Finite? && 0.0 <= c.holdP.r <= 1.0) || c.holdP.NaN?)
  }

  /** `c` holds the arguments `a` unchanged, except `hold_p`, which is held as `float(hold_p)`. */
  predicate Stores(a: Args, c: Config) {
    && a.name == Str(c.name)
    && a.writeTo == Str(c.writeTo)
    && a.strategy == Str(StrategyName(c.strategy))
    && a.holdAt == c.holdAt
    && IsNumber(a.holdP) && c.holdP == ToFloat(a.holdP)
    && a.learnFrom == List(Wrap(c.learnFrom))
  }

  /**
   * The argument checks of the constructor and the values it assigns. The
   * call succeeds exactly when every check passes; otherwise it raises what
   * the first failing check raises. A success holds a valid configuration
   * storing the arguments.
   */
  function Validate(a: Args): (r: Result<Config, ErrKind>)
    ensures r.Ok? <==> forall i :: 0 <= i < |Checks(a)| ==> Checks(a)[i].passed
    ensures r.Err? ==> FirstFailure(Checks(a)) == Some(r.error)
    ensures r.Ok? ==> ValidConfig(r.value) && Stores(a, r.value)
  {
    RunChecks(a);
    if !NameOk(a.name) then Err(ValueError)
    else if !WriteToOk(a.writeTo) then Err(TypeError)
    else if !StrategyOk(a.strategy) then Err(ValueError)
    else if !HoldAtOk(a.holdAt) then Err(ValueError)
    else if !HoldPOk(a.holdP) then Err(ValueError)
    else if !LearnFromOk(a.learnFrom) then Err(ValueError)
    else if !PrintInfoOk(a.printPlayerInfo) then Err(TypeError)
    else
      Ok(Config(a.name.s, a.writeTo.s, StrategyOf(a.strategy).value, a.holdAt,
                ToFloat(a.holdP), Strings(a.learnFrom.items)))
  }

  /** The arguments that name a configuration directly. */
  function ArgsFor(c: Config, printPlayerInfo: bool): Args {
    Args(Str(c.name), Str(c.writeTo), Str(StrategyName(c.strategy)), c.holdAt,
         Float(c.holdP), List(Wrap(c.learnFrom)), Bool(printPlayerInfo))
  }

  /** Every valid configuration is what the constructor builds from its own arguments. */
  lemma ValidateArgsFor(c: Config, printPlayerInfo: bool)
    requires ValidConfig(c)
    ensures Validate(ArgsFor(c, printPlayerInfo)) == Ok(c)
  {
    StringsOfWrap(c.learnFrom);
  }

  /** A Pig player, whose fields the constructor assigns once its checks have passed. */
  class PigPlayer {
    var name: string
    var writeTo: string
    var strategy: Strategy
    var holdAt: Value
    var holdP: PyFloat
    var learnFrom: seq<string>

    /** The player's fields as one configuration. */
    function Settings(): Config
      reads this
    {
      Config(name, writeTo, strategy, holdAt, holdP, learnFrom)
    }

    /** The field assignments, reached only once every check has passed. */
    constructor (a: Args)
      requires Validate(a).Ok?
      ensures Settings() == Validate(a).value
      ensures ValidConfig(Settings()) && Stores(a, Settings())
    {
      var c := Validate(a).value;
      name := c.name;
      writeTo := c.writeTo;
      strategy := c.strategy;
      holdAt := c.holdAt;
      holdP := c.holdP;
      learnFrom := c.learnFrom;
    }

    /**
     * `PigPlayer(...)`: raises what the first failing check raises, and
     * otherwise returns a new player holding the arguments. No player is
     * returned when a check fails.
     */
    static method Create(a: Args) returns (r: Result<PigPlayer, ErrKind>)
      ensures r.Err? <==> exists i :: 0 <= i < |Checks(a)| && !Checks(a)[i].passed
      ensures r.Err? ==> Some(r.error) == FirstFailure(Checks(a))
      ensures r.Ok? ==> fresh(r.value) && ValidConfig(r.value.Settings()) && Stores(a, r.value.Settings())
    {
      var v := Validate(a);
      if v.Err? {
        r := Err(v.error);
      } else {
        var p := new PigPlayer(a);
        r := Ok(p);
      }
    }
  }

  // Properties of the individual checks.

  /** A name that is not a string, or is empty, raises ValueError whatever the other arguments. */
  lemma NameRejected(a: Args)
    requires !a.name.Str? || a.name.s == ""
    ensures Validate(a) == Err(ValueError)
  {
  }

  /** Once the name passes, a `write_to` that is not a string raises TypeError. */
  lemma WriteToRejected(a: Args)
    requires NameOk(a.name) && !a.writeTo.Str?
    ensures Validate(a) == Err(TypeError)
  {
  }

  /** The empty `write_to` passes its check and is stored as it is. */
  lemma EmptyWriteToAccepted(a: Args)
    requires a.writeTo == Str("")
    requires forall i :: 0 <= i < |Checks(a)| && i != 1 ==> Checks(a)[i].passed
    ensures Validate(a).Ok? && Validate(a).value.writeTo == ""
  {
  }

  /** Once name and `write_to` pass, a strategy other than the three tags raises ValueError. */
  lemma StrategyRejected(a: Args)
    requires NameOk(a.name) && WriteToOk(a.writeTo)
    requires a.strategy !in {Str("random"), Str("hold"), Str("learn")}
    ensures Validate(a) == Err(ValueError)
  {
  }

  /** `hold_at` passes exactly when it is an int (a bool included) in [1, 100], both ends included. */
  lemma HoldAtMeaning(v: Value)
    ensures HoldAtOk(v) <==> IsInt(v) && 1 <= IntOf(v) <= 100
    ensures HoldAtOk(Int(1)) && HoldAtOk(Int(100)) && HoldAtOk(Bool(true))
    ensures !HoldAtOk(Int(0)) && !HoldAtOk(Int(101)) && !HoldAtOk(Bool(false))
    ensures !HoldAtOk(Float(Finite(20.0))) && !HoldAtOk(Str("20"))
  {
  }

  /**
   * Once the first three checks pass, a bad `hold_at` raises ValueError,
   * whatever the strategy: the check does not depend on it.
   */
  lemma HoldAtRejected(a: Args)
    requires NameOk(a.name) && WriteToOk(a.writeTo) && StrategyOk(a.strategy)
    requires !(IsInt(a.holdAt) && 1 <= IntOf(a.holdAt) <= 100)
    ensures Validate(a) == Err(ValueError)
  {
  }

  /**
   * `hold_p` passes exactly when it is an int or bool in [0, 1], or a float
   * in [0, 1] or NaN (every comparison with NaN is false, so both range
   * tests let it through); infinities do not pass.
   */
  lemma HoldPMeaning(v: Value)
    ensures HoldPOk(v) <==>
      (IsInt(v) && 0 <= IntOf(v) <= 1) ||
      (v.Float? && (v.f.NaN? || (v.f.Finite? && 0.0 <= v.f.r <= 1.0)))
    ensures HoldPOk(Float(NaN)) && !HoldPOk(Float(PosInf)) && !HoldPOk(Float(NegInf))
    ensures HoldPOk(Int(0)) && HoldPOk(Int(1)) && HoldPOk(Bool(true)) && !HoldPOk(Int(2))
  {
  }

  /** Once the first four checks pass, a bad `hold_p` raises ValueError. */
  lemma HoldPRejected(a: Args)
    requires NameOk(a.name) && WriteToOk(a.writeTo) && StrategyOk(a.strategy) && HoldAtOk(a.holdAt)
    requires !HoldPOk(a.holdP)
    ensures Validate(a) == Err(ValueError)
  {
  }

  /** An accepted `hold_p` is stored as the float of the same value. */
  lemma HoldPStoredAsFloat(a: Args)
    requires Validate(a).Ok?
    ensures Validate(a).value.holdP == ToFloat(a.holdP)
    ensures IsInt(a.holdP) ==> Validate(a).value.holdP == Finite(IntOf(a.holdP) as real)
    ensures a.holdP.Float? ==> Validate(a).value.holdP == a.holdP.f
  {
  }

  /** `learn_from` passes exactly when it is a list whose every element is a string. */
  lemma LearnFromMeaning(v: Value)
    ensures LearnFromOk(v) <==> v.List? && forall i :: 0 <= i < |v.items| ==> v.items[i].Str?
    ensures LearnFromOk(List([])) && !LearnFromOk(List([Str("a"), Int(1)])) && !LearnFromOk(Str("a"))
  {
  }

  /** Once the first five checks pass, a bad `learn_from` raises ValueError. */
  lemma LearnFromRejected(a: Args)
    requires NameOk(a.name) && WriteToOk(a.writeTo) && StrategyOk(a.strategy)
    requires HoldAtOk(a.holdAt) && HoldPOk(a.holdP)
    requires !a.learnFrom.List? || exists i :: 0 <= i < |a.learnFrom.items| && !a.learnFrom.items[i].Str?
    ensures Validate(a) == Err(ValueError)
  {
  }

  /** An empty `learn_from` is accepted even for the 'learn' strategy. */
  lemma EmptyLearnFromAccepted(a: Args)
    requires a.strategy == Str("learn") && a.learnFrom == List([])
    requires NameOk(a.name) && WriteToOk(a.writeTo) && HoldAtOk(a.holdAt) && HoldPOk(a.holdP)
    requires PrintInfoOk(a.printPlayerInfo)
    ensures Validate(a).Ok?
    ensures Validate(a).value.strategy == Learn && Validate(a).value.learnFrom == []
  {
  }

  /** After every other check passes, a `print_player_info` that is not a bool raises TypeError. */
  lemma PrintInfoRejected(a: Args)
    requires forall i :: 0 <= i < 6 ==> Checks(a)[i].passed
    requires !a.printPlayerInfo.Bool?
    ensures Validate(a) == Err(TypeError)
  {
  }

  /** The ints 0 and 1 are not bools, so they do not pass as `print_player_info`. */
  lemma IntIsNotBool()
    ensures !PrintInfoOk(Int(0)) && !PrintInfoOk(Int(1))
  {
  }

  /** The checks run in order, so the first one that fails decides the exception. */
  lemma FirstFailingCheckDecides(a: Args, i: nat)
    requires i < |Checks(a)| && FirstFailingAt(Checks(a), i)
    ensures Validate(a) == Err(Checks(a)[i].raises)
  {
  }

  /**
   * An empty name raises ValueError even when `write_to` is not a string,
   * although the `write_to` check on its own would raise TypeError.
   */
  lemma EmptyNameBeforeWriteTo(a: Args)
    requires a.name == Str("") && !a.writeTo.Str?
    ensures !Checks(a)[1].passed && Checks(a)[1].raises == TypeError
    ensures Validate(a) == Err(ValueError)
  {
  }

  /**
   * `True` is an int equal to 1 and `False` one equal to 0: `True` passes
   * the `hold_at` check and `False` does not; both pass the `hold_p` check
   * and are stored as the floats 1.0 and 0.0.
   */
  lemma BoolCountsAsInt(b: bool)
    ensures HoldAtOk(Bool(b)) <==> b
    ensures HoldPOk(Bool(b)) && ToFloat(Bool(b)) == Finite(if b then 1.0 else 0.0)
  {
  }

  /** The default arguments are accepted. */
  lemma DefaultsAccepted()
    ensures Validate(DefaultArgs()) == Ok(Config("peppa", "", Random, Int(20), Finite(0.2), []))
  {
  }
}
