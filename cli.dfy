/**
 * The command-line entry: the count comes from the first argument, or is
 * 10,000 when there is none; a count that is not a number or not positive is
 * rejected before anything is generated.
 */
module Cli {
  import opened Wrappers
  import opened UserModel
  import opened Generator
  import UserProperties

  const DefaultCount: nat := 10000

  /**
   * The first command-line argument after integer parsing: `Absent` when it is
   * missing (or empty, which the source also treats as missing), otherwise the
   * parsed value with `None` standing for NaN.
   */
  datatype CountArg = Absent | Parsed(value: Option<int>)

  datatype ArgError = InvalidCount

  /**
   * The guard: the requested count is accepted exactly when it is a number
   * greater than zero; no argument gives the default.
   */
  function CheckCount(arg: CountArg): (r: Result<nat, ArgError>)
    ensures arg.Absent? ==> r == Ok(DefaultCount)
    ensures arg.Parsed? ==> (r.Ok? <==> arg.value.Some? && arg.value.value > 0)
    ensures r.Ok? ==> r.value > 0
    ensures r.Ok? && arg.Parsed? ==> r.value == arg.value.value
  {
    match arg
    case Absent => Ok(DefaultCount)
    case Parsed(None) => Err(InvalidCount)
    case Parsed(Some(v)) => if v <= 0 then Err(InvalidCount) else Ok(v)
  }

  /**
   * Guard, then generate. A rejected argument yields the error and no
   * records; an accepted one yields exactly the generation for that count.
   */
  method GenerateFromArg(arg: CountArg) returns (r: Result<seq<User>, ArgError>)
    ensures r.Err? <==> CheckCount(arg).Err?
    ensures r.Ok? ==> |r.value| == CheckCount(arg).value && IsGeneration(CheckCount(arg).value, r.value)
    ensures r.Ok? && arg.Absent? ==> |r.value| == DefaultCount
  {
    var checked := CheckCount(arg);
    if checked.Err? {
      return Err(checked.error);
    }
    var users := GenerateUsers(checked.value);
    return Ok(users);
  }

  /** Zero and negative counts are rejected; a count of one yields only record 1. */
  lemma GuardBoundaries(users: seq<User>)
    requires IsGeneration(1, users)
    ensures CheckCount(Parsed(Some(0))) == Err(InvalidCount)
    ensures CheckCount(Parsed(Some(-5))) == Err(InvalidCount)
    ensures CheckCount(Parsed(None)) == Err(InvalidCount)
    ensures CheckCount(Parsed(Some(1))) == Ok(1)
    ensures |users| == 1 && users[0].id == 1
  {}

  /** Generating three records: ids 1, 2, 3; record 1 has the "dark" theme and no Twitter or
      LinkedIn handle; record 3 has a Twitter handle. */
  lemma ThreeRecords(users: seq<User>)
    requires IsGeneration(3, users)
    ensures |users| == 3 && users[0].id == 1 && users[1].id == 2 && users[2].id == 3
    ensures users[0].preferences.theme == "dark"
    ensures users[0].socialLinks.twitter.None? && users[0].socialLinks.linkedin.None?
    ensures users[2].socialLinks.twitter.Some?
  {
    UserProperties.PreferencesRule(1);
    UserProperties.SocialLinksPresence(3);
  }
}
