# Triangle classifier and currency-rate bot, modelled in Dafny

This project models the three pieces of deterministic logic in a coursework
repository that is otherwise Telegram, Flask and PostgreSQL glue:

- **`get_triangle_type`** (`triangle_func.py`), module `TriangleFunc`: three
  integer sides are rejected with `IncorrectTriangleSides` unless they are
  positive and satisfy the strict triangle inequality; accepted sides are
  labelled `"equilateral"`, `"isosceles"` or `"nonequilateral"`, in that order
  of precedence. The model proves the guard equal to an independent definition
  (the longest side is strictly shorter than the other two together), proves
  the label equal to the number of distinct side lengths (1, 2 or 3), and
  proves the outcome invariant under every reordering of the sides. It also
  proves that the strict inequalities alone already force positive sides, so
  the source's `<= 0` tests never change an outcome.
- **`Triangle`** (`triangle_class.py`), module `TriangleClass`: a class whose
  sides are assigned once, after the same guard. The raising constructor is
  the factory `Triangle.Create`, which returns a `Result`. `TriangleType` is
  proved to give the label `get_triangle_type` gives on the same sides. The
  class file repeats the logic rather than importing it, and so does the model.
  `Perimeter` is proved to exceed twice every side of a constructed triangle.
- **The currency bot of `lab4/lab4.py`**, modules `CurrencyCode` and
  `CurrencyBot`, with its Telegram transport removed. Class `Bot` holds the
  global `currency_rates` map, the conversation's FSM state and the
  conversation's stored data. Each message handler is a method with a
  `modifies` clause. Its contract gives the new state, the new stored data and
  the new map in terms of the old ones. Every handler preserves the object
  invariant `Valid()`: each stored rate is positive and keyed by a three-letter
  code, the `rate` state always has a remembered code, and the `amount` state
  always has a remembered currency that is present in the map. So the lookups
  `data['currency_name']` and `currency_rates[currency_name]` never fail. The
  text a user types for a currency goes through `strip()` and then `upper()`.
  These are modelled as functions on strings, with specifications and an
  idempotence lemma.

Typed numbers reach the handlers already parsed. They arrive as
`Option<real>`, and `None` stands for the `ValueError` of `float()`.

## Model

| member | source | states |
|---|---|---|
| `TriangleFunc.GetTriangleType` | triangle_func.py:4-12 | fails with IncorrectTriangleSides exactly when the sides are not a proper triangle (longest side not strictly shorter than the other two together); on success the label is fixed by the number of distinct side lengths |
| `TriangleFunc.Rejected` | triangle_func.py:5 | the source's six-part guard holds exactly when the reference triangle definition fails |
| `TriangleFunc.InequalitiesImplyPositive` | triangle_func.py:5 | the three strict triangle inequalities alone imply that every side is positive |
| `TriangleFunc.FailsOnNonPositiveSide` | triangle_func.py:5-6 | any side <= 0 gives IncorrectTriangleSides |
| `TriangleFunc.FailsOnTriangleInequality` | triangle_func.py:5-6 | any pair whose sum is <= the third side gives IncorrectTriangleSides, so flat triangles such as (1,1,2) are rejected |
| `TriangleFunc.SucceedsOnTriangle` | triangle_func.py:5-12 | every positive triple with the strict triangle inequality succeeds and gets one of the three labels |
| `TriangleFunc.DistinctSides` | triangle_func.py:7-12 | all-equal sides form 1 distinct length, some-but-not-all-equal sides form 2, and pairwise-different sides form 3 |
| `TriangleFunc.LabelsBySideEquality` | triangle_func.py:7-12 | on success: equilateral iff a == b == c; isosceles iff not all equal and some pair equal; nonequilateral iff all three differ |
| `TriangleFunc.PermutationInvariant` | triangle_func.py:5-12 | the result is the same for all six orderings of the sides |
| `TriangleFunc.UnitTestCases` | test_func.py:5-16 | (3,3,3) is equilateral, (5,5,8) isosceles, (6,7,8) nonequilateral, and (0,1,1) fails |
| `TriangleClass.Triangle.constructor` | triangle_class.py:8-10 | stores a, b, c unchanged; the stored sides satisfy the triangle invariant |
| `TriangleClass.Triangle.Create` | triangle_class.py:5-10 | raises IncorrectTriangleSides exactly when the sides are not a proper triangle by the reference definition, so on the same triples as get_triangle_type; otherwise yields a fresh triangle holding the given sides and satisfying the invariant |
| `TriangleClass.Triangle.TriangleType` | triangle_class.py:12-18 | on a valid triangle, the label equals what get_triangle_type returns for the same sides |
| `TriangleClass.Triangle.Perimeter` | triangle_class.py:20-21 | the perimeter is a + b + c; on a valid triangle it is positive and strictly greater than twice each side |
| `TriangleClass.EquilateralCase` | test_class.py:4-7 | Triangle(3,3,3) is equilateral with perimeter 9 |
| `TriangleClass.IsoscelesCase` | test_class.py:9-11 | Triangle(5,5,8) is isosceles |
| `TriangleClass.InvalidCase` | test_class.py:13-15 | Triangle(1,1,3) raises IncorrectTriangleSides |
| `CurrencyCode.SkipSpaces` | lab4/lab4.py:48 | the index where leading whitespace ends: everything from the start index up to it is whitespace, and it is the end of the text or a non-whitespace character |
| `CurrencyCode.SkipSpacesBack` | lab4/lab4.py:48 | the index where trailing whitespace begins: everything from it up to the end index is whitespace, and it is the lower bound or just past a non-whitespace character |
| `CurrencyCode.Strip` | lab4/lab4.py:48 | the result is a contiguous slice of the input with only whitespace before and after it, and it begins and ends with a non-whitespace character unless empty |
| `CurrencyCode.UpperChar` | lab4/lab4.py:48 | a lower-case letter becomes the capital at the same position in the alphabet; letters stay letters and whitespace stays whitespace; any other character is unchanged |
| `CurrencyCode.Upper` | lab4/lab4.py:48 | the same length; each lower-case letter becomes its own capital and every other character is unchanged; letters and whitespace stay at the same positions |
| `CurrencyCode.UpperIgnoresCase` | lab4/lab4.py:48 | two strings that differ only in letter case upper-case to the same string |
| `CurrencyCode.NormalizeIgnoresCase` | lab4/lab4.py:48 | two texts that differ only in letter case normalise to the same name, so "usd" and "USD" name one currency |
| `CurrencyCode.Normalize` | lab4/lab4.py:48 | strip then upper: no longer than the typed text, no surrounding whitespace and no lower-case letter left |
| `CurrencyCode.NormalizeIdempotent` | lab4/lab4.py:48 | strip-then-upper applied to its own output changes nothing |
| `CurrencyCode.Acceptable` | lab4/lab4.py:51 | the `isalpha()`-and-length-3 test on the normalised text holds exactly when it is a three-letter code, and exactly when the stripped text already is one, so upper-casing never decides acceptance |
| `CurrencyCode.AcceptedIsUpperCode` | lab4/lab4.py:51 | a name that passes `isalpha()` and length 3 is exactly three capital letters A-Z |
| `CurrencyCode.NormalizeExamples` | lab4/lab4.py:48-51 | " usd\n" normalises to "USD" and " eur " is accepted |
| `CurrencyCode.RefusedExamples` | lab4/lab4.py:48-53 | "US", "US1" and the command text "/convert" are refused as names |
| `CurrencyBot.InRoubles` | lab4/lab4.py:124 | the converted sum of a positive amount at a positive rate is positive |
| `CurrencyBot.Bot.constructor` | lab4/lab4.py:17-24 | the bot starts with an empty rate map, no FSM state and no stored data, and satisfies the invariant |
| `CurrencyBot.Bot.SaveCurrency` | lab4/lab4.py:39-42 | /save_currency moves to the `name` state from any state, keeping the map and the stored data |
| `CurrencyBot.Bot.ProcessCurrencyName` | lab4/lab4.py:46-57 | the normalised name is accepted iff it is three letters; then it is stored as currency_name and the state becomes `rate`; otherwise state and data stay; the map never changes |
| `CurrencyBot.Bot.ProcessCurrencyRate` | lab4/lab4.py:61-76 | saves iff the rate parsed and is > 0; then the map is the old map with the remembered code set to the rate (overwriting, all other keys kept) and the conversation is cleared; otherwise nothing changes and the state stays `rate` |
| `CurrencyBot.Bot.Convert` | lab4/lab4.py:80-90 | reached from no state, `currency` or `amount`; /convert enters the `currency` state iff the map is non-empty; a refusal leaves the state as it was; the map and data never change |
| `CurrencyBot.Bot.ProcessConvertCurrency` | lab4/lab4.py:94-107 | a normalised name found in the map is stored as convert_currency and the state becomes `amount`; an unknown one leaves the state at `currency`; the map never changes |
| `CurrencyBot.Bot.ProcessConvertAmount` | lab4/lab4.py:111-127 | succeeds iff the amount parsed and is > 0; then the result is amount times the remembered currency's rate, is positive, and the conversation is cleared; otherwise the state stays `amount`; the map never changes |
| `CurrencyBot.SaveThenConvert` | lab4/lab4.py:39-127 | saving a rate under a name and then converting with any text that normalises to the same code yields amount * rate |
| `CurrencyBot.SaveTwice` | lab4/lab4.py:73 | saving a code twice leaves the second rate in the map |
| `CurrencyBot.ConvertWithoutRates` | lab4/lab4.py:82-84 | /convert on a fresh bot is refused and the bot stays in no state |

## Left out

- Triangle sides are mathematical integers, as `get_triangle_type` is
  annotated. Python does not enforce that annotation, so both forms accept
  floats at run time. Float rounding is not modelled in either form. For
  example, `get_triangle_type(0.1, 0.2, 0.3)` passes the guard because
  0.1 + 0.2 rounds above 0.3, and it returns "nonequilateral".
- The exception message strings are not modelled. Only the exception kind is.
- The aiogram `Bot`/`Dispatcher` wiring, the async handlers and every
  `message.answer` reply are chat I/O and are not modelled. `cmd_start` only
  sends a reply, so it has no model. Routing a message to a handler is also
  not modelled as an operation. aiogram gives a message to the first
  registered handler whose filter matches. Each state handler therefore
  requires its state. `cmd_save_currency` is registered before every state
  handler, so it is reachable from any state. `cmd_convert` is registered
  after the `name` and `rate` handlers, so in those states the text
  "/convert" goes to them instead. There it is refused as a name
  (`CurrencyCode.RefusedExamples`) or fails to parse as a rate, and the state
  stays. `CurrencyBot.Bot.Convert` therefore requires a state other than
  `name` and `rate`.
- The model has one conversation. In the bot, `currency_rates` is shared by
  all chats, while FSM state and data are kept per chat. Other chats' saves
  can only add or overwrite keys, and they never remove one. Interleaving of
  several chats is still not modelled.
- Number parsing, `float(message.text.replace(",", "."))`, is not modelled.
  Handlers receive the parsed value as `Option<real>`. Python's `float()` also
  accepts `"nan"` and `"inf"`. Both pass the `<= 0` test, but neither is a
  real number, so neither can reach the model.
- The `:.2f` formatting of the converted sum is not modelled.
- `message.text` being `None` (a non-text message) is not modelled. There
  `.strip()` would raise.
- `CurrencyCode.Strip`, `CurrencyCode.Upper`: `str.strip`, `str.upper` and
  `str.isalpha` are restricted to ASCII. Python's Unicode versions also do
  the following, none of which the model does:
  - They strip non-ASCII spaces.
  - They upper-case non-ASCII letters. Sometimes this changes the length, as
    with 'ß' becoming "SS". Some become ASCII capitals, as 'ſ' (long s)
    becomes 'S' and 'ı' (dotless i) becomes 'I'.
  - They accept non-ASCII letters such as 'é' or 'Д' as alphabetic.

  So the bot accepts some texts that this model refuses. "РУБ" is saved as a
  code. "uſd" normalises to "USD", passes the three-letter test and selects
  a saved USD rate.
- The SQL, HTTP and network code of lab5.py, bot.py, bot_rgz.py,
  currency_manager.py, data-maneger.py, server_rgz.py, create_db_rgz.py and
  init_db.py is not part of this model.
