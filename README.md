# Pig player construction

A model of how a player of the dice game Pig is constructed in
`pig_master.py`. `PigPlayer.__init__` takes seven arguments (`name`,
`write_to`, `strategy`, `hold_at`, `hold_p`, `learn_from`,
`print_player_info`), runs one check per argument in a fixed order, and
raises `ValueError` or `TypeError` at the first check that fails. When every
check passes it stores six of the arguments as the player's fields, with
`hold_p` converted by `float(...)`.

The project has three modules:

- `Wrappers` (`wrappers.dfy`): `Option` and `Result`.
- `Values` (`values.dfy`): the dynamically typed Python values the
  constructor receives. Strings, ints, bools, floats, lists and everything
  else are separate cases. It also models the Python operations the checks
  use:
  - `isinstance(v, int)` holds for bools too.
  - Ordered comparison with an integer constant is false whenever NaN is
    involved.
  - `float(...)` converts a number to a float.
  - `all(isinstance(x, str) for x in xs)` tests every list element.
- `PigMaster` (`pig_master.dfy`): the arguments (`Args`), the stored
  configuration (`Config`), the seven checks and their table in run order
  (`Checks`), and `Validate`, which returns either the configuration or the
  exception kind. It also holds the `PigPlayer` class, whose constructor
  assigns the fields, and `PigPlayer.Create`, the constructor call that
  either raises or returns a new player.

The validation is a pure function: the checks are predicates with early
exits. The field assignment is a class constructor. `Validate` is tied to an
independent reference, `FirstFailure`, which takes a table of checks in order
and raises the error of the first one that fails. The model proves that
`Validate` succeeds exactly when every check in the table passes, and that
otherwise it raises what `FirstFailure` raises. It also proves that a
successful result is a valid configuration that stores its arguments, and
that every valid configuration is what `Validate` builds from its own
arguments (`ValidateArgsFor`).

Points where Python's semantics decide the outcome, and which the model keeps:

- `True` is an int equal to 1, so `hold_at=True` is accepted and stored as
  `True`. `hold_at=False` is rejected, because 0 is below 1.
- `hold_p=float('nan')` is accepted. Both range comparisons with NaN are
  false. The infinities are rejected.
- `print_player_info=1` is rejected with `TypeError`, because 1 is not a bool.
- The comparisons in the `hold_at` and `hold_p` checks run only on numbers,
  because Python's `or` stops at its first true operand.

The code checks only that `learn_from` is a list of strings
(pig_master.py:22-23), so an empty list is accepted with every strategy,
`learn` included (`EmptyLearnFromAccepted`).

## Model

| member | source | states |
|---|---|---|
| `Values.IsInt` | pig_master.py:16 | `isinstance(v, int)`: true for ints and for bools |
| `Values.IsNumber` | pig_master.py:19 | `isinstance(v, (float, int))`: true for floats, ints and bools |
| `Values.Less` | pig_master.py:16-19 | Python's `v < k` for a number and an integer constant; false whenever `v` is NaN |
| `Values.Greater` | pig_master.py:16-19 | Python's `v > k` for a number and an integer constant; false whenever `v` is NaN |
| `Values.ToFloat` | pig_master.py:34 | `float(v)`: an int or bool becomes the float of the same value, and a float is kept |
| `Values.ToFloatKeepsOrder` | pig_master.py:34 | `float(hold_p)` compares with every integer exactly as `hold_p` did, and is NaN only for a NaN argument |
| `Values.AllStrings` | pig_master.py:23 | `all(isinstance(x, str) ...)` holds exactly when every element of the list is a string |
| `Values.Wrap` | pig_master.py:35 | the list built from strings has the same length and holds each string at the same index |
| `Values.Strings` | pig_master.py:35 | the strings read from an all-string list rebuild exactly that list |
| `Values.StringsOfWrap` | pig_master.py:35 | a list built from strings is all-string, and reading it back gives the same strings (round trip) |
| `PigMaster.StrategyOf` | pig_master.py:13 | a strategy value is recognised exactly when it equals one of the three tags 'random', 'hold', 'learn', and then names that strategy |
| `PigMaster.DefaultArgs` | pig_master.py:3-5 | the default arguments: 'peppa', '', 'random', 20, 0.2, `[]`, `True` |
| `PigMaster.NameOk` | pig_master.py:7 | `name` passes when it is a string other than the empty one |
| `PigMaster.WriteToOk` | pig_master.py:10 | `write_to` passes when it is a string, empty or not |
| `PigMaster.StrategyOk` | pig_master.py:13 | `strategy` passes when it is one of 'random', 'hold', 'learn' |
| `PigMaster.HoldAtOk` | pig_master.py:16 | `hold_at` passes when it is an int and neither below 1 nor above 100; no comparison is made on a non-int |
| `PigMaster.HoldPOk` | pig_master.py:19 | `hold_p` passes when it is a float or int and neither below 0 nor above 1; no comparison is made on a non-number |
| `PigMaster.LearnFromOk` | pig_master.py:22-23 | `learn_from` passes when it is a list and every element is a string |
| `PigMaster.PrintInfoOk` | pig_master.py:26 | `print_player_info` passes when it is a bool |
| `PigMaster.Checks` | pig_master.py:7-28 | the seven checks in the order the constructor runs them, with ValueError or TypeError for each |
| `PigMaster.FirstFailure` | pig_master.py:7-28 | running checks in order raises nothing exactly when all pass, and otherwise raises the error of the first failing check |
| `PigMaster.RunChecks` | pig_master.py:7-28 | the check table, run in order, is the sequence of seven checks of the constructor with their exception kinds |
| `PigMaster.Validate` | pig_master.py:7-35 | construction succeeds exactly when all seven checks pass; otherwise it raises what the first failing check raises; a success is a valid configuration storing the arguments, with `hold_p` as `float(hold_p)` |
| `PigMaster.ValidateArgsFor` | pig_master.py:7-35 | every valid configuration is accepted and reproduced from its own arguments |
| `PigMaster.PigPlayer.constructor` | pig_master.py:30-35 | the six fields hold the validated arguments, `hold_p` converted to float, and form a valid configuration |
| `PigMaster.PigPlayer.Create` | pig_master.py:3-35 | the constructor raises exactly when some check fails, with the first failing check's exception; otherwise it returns a fresh player holding the arguments |
| `PigMaster.NameRejected` | pig_master.py:7-9 | a name that is not a string, or is empty, raises ValueError whatever the other arguments |
| `PigMaster.WriteToRejected` | pig_master.py:10-12 | once the name passes, a non-string `write_to` raises TypeError |
| `PigMaster.EmptyWriteToAccepted` | pig_master.py:10-12 | an empty `write_to` passes and is stored as the empty string |
| `PigMaster.StrategyRejected` | pig_master.py:13-15 | once name and `write_to` pass, a strategy outside {'random', 'hold', 'learn'} raises ValueError |
| `PigMaster.HoldAtMeaning` | pig_master.py:16 | `hold_at` passes exactly when it is an int or bool with 1 <= value <= 100, both ends included; `True` passes, `False`, floats and strings do not |
| `PigMaster.HoldAtRejected` | pig_master.py:16-18 | once the first three checks pass, a bad `hold_at` raises ValueError, whatever the strategy |
| `PigMaster.HoldPMeaning` | pig_master.py:19 | `hold_p` passes exactly when it is an int or bool in [0, 1], or a float in [0, 1], or NaN; infinities do not pass |
| `PigMaster.HoldPRejected` | pig_master.py:19-21 | once the first four checks pass, a bad `hold_p` raises ValueError |
| `PigMaster.HoldPStoredAsFloat` | pig_master.py:34 | the stored `hold_p` is the float of the argument: an int or bool becomes the equal real, and a float is kept |
| `PigMaster.LearnFromMeaning` | pig_master.py:22-23 | `learn_from` passes exactly when it is a list whose every element is a string; the empty list passes |
| `PigMaster.LearnFromRejected` | pig_master.py:22-25 | once the first five checks pass, a non-list or a list with a non-string element raises ValueError |
| `PigMaster.EmptyLearnFromAccepted` | pig_master.py:22-25 | an empty `learn_from` is accepted even with strategy 'learn' |
| `PigMaster.PrintInfoRejected` | pig_master.py:26-28 | once the other checks pass, a non-bool `print_player_info` raises TypeError |
| `PigMaster.IntIsNotBool` | pig_master.py:26 | the ints 0 and 1 are not bools and do not pass as `print_player_info` |
| `PigMaster.BoolCountsAsInt` | pig_master.py:16-21 | `True` passes the `hold_at` check and `False` does not; both pass the `hold_p` check and are stored as 1.0 and 0.0 |
| `PigMaster.FirstFailingCheckDecides` | pig_master.py:7-28 | whichever check fails first decides the exception raised |
| `PigMaster.EmptyNameBeforeWriteTo` | pig_master.py:7-12 | an empty name raises ValueError even when `write_to` is not a string, whose own check would raise TypeError |
| `PigMaster.DefaultsAccepted` | pig_master.py:3-5 | the default arguments are accepted and give the player 'peppa', strategy random, hold at 20, `hold_p` 0.2, no sources |

## Left out

- The console output is not modelled. This covers the message printed before each exception (lines 8, 11, 14, 17, 20, 24, 27) and the summary printed after construction (lines 37-46). The summary is gated on `strategy == 'hold'` where `'learn'` looks intended (line 44), but that affects only printed text.
- The shared mutable default `learn_from=[]` (line 4) is not modelled. Neither is the storing of the caller's list by reference (line 35). Both are aliasing concerns: the model stores the list's strings as a value.
- `Values.ToFloat`: an integer becomes the float of exactly the same value. Python rounds very large integers, or raises OverflowError for them, but only 0 and 1 reach the conversion after the range check.
- `Values.Value`: values of other types are all one case, `Other`. An instance of a subclass of `str`, `int`, `float` or `list` (a `numpy.float64`, say) that keeps its base type's `==`, `<` and `>` is represented by its base case, and the checks then agree with Python exactly. A subclass or other object that overrides those comparisons is not modelled, so nothing but a string can equal a strategy tag.
- `Values.PyFloat`: a finite float is an exact real, not an IEEE double, so the default 0.2 is exactly 1/5 rather than the nearest double. No check's outcome depends on the difference.
- `Values.Value`: a Dafny `string` cannot hold the lone surrogates that a Python `str` may contain. No check inspects the characters beyond comparing with the empty string and the three tags.
- The game, turn simulation, decision policy, frequency table and tournament are outside `PigPlayer.__init__`. They are not part of this model.
