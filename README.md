# CB-CaptchaGuard in Dafny

CB-CaptchaGuard is a chat-room bot. It hides the messages of new participants
until they have answered a small sum ("3 plus 4 equals ??"). This project models
the three controllers that make up its core.

- **Access control** (`access_control.dfy`, module `AccessControl`). It derives a
  participant's claims from the attributes the host attaches to every user and
  message: developer, broadcaster, helper, moderator, fan club, and the token and
  tip tiers. From the claims it derives the permission tiers DEV, MOD, SUPERUSER
  and USER. Each claim has a reference definition (`Grants`). The claims array
  is built by the source's pushes, in the source's order. Each tier is proved
  equal to a closed formula over the attributes.
- **The math challenge** (`math_captcha.dfy`, module `MathCaptcha`).
  - Two operands come from `Math.round(Math.random() * 8) + 1`. The random
    draws are parameters.
  - The question text is `"<a> plus <b> equals ??"`.
  - The checker closure compares `parseInt(answer, 10)` with the sum. `parseInt`
    is modelled step by step after section 19.2.5 of ECMA-262: leading
    StrWhiteSpaceChar skipped, optional sign, longest run of decimal digits,
    NaN when there is none. The model proves the round trip (parseInt reads
    back the decimal text of any non-negative integer, whatever non-digit
    text follows), what
    the question text states, and which answer forms are accepted or refused.
- **The guard** (`captcha_guard.dfy`, module `CaptchaGuard`). Class `Guard` holds
  the mutable collections of the source: the white list, the black list, the
  cooldown set, the armed checks (user to expected sum) and the command
  activators. Each operation of the guard that decides who is challenged or
  listed has a method: `checkAndAddToLists`, `checkAnswer`, the timer
  continuations, `filterMessage`, `whitelistOnTip`, `handleCommands` and its
  command arms, `importFromJson`, `exportToJson`, `deleteFromAllLists` and
  `getWhitelistedClaims`; `isInAnyList` is the predicate `InAnyList`. The
  methods that only send status texts are listed under "Left out". Each
  method's contract gives the new collections, the timers and the notices it
  sends, often through pure specification functions (`Evict`, `AddTo`,
  `RemoveFrom`, `ImportInto`, `Effect`, `Replies`, `WhitelistedClaims`). An
  EXPORT reply is stated by the lists it carries, not by its exact text. Two
  ghost fields make the side effects visible:
  - `notices` is every message sent, with its kind and recipient;
  - `timers` is the multiset of continuations handed to `cb.setTimeout` that
    have not run yet.

  Each continuation is a method that requires its own timer to be pending. The
  host may run pending timers in any order, between any events.

  The class invariant `Valid()` states that every armed check and every cooldown
  has the timer that ends it pending, and that every expected sum, armed or
  scheduled, lies in 2..18.

The model follows the code, including these behaviours of it:

- The code does not keep the collections disjoint. A tip white-lists a
  black-listed or cooling-down user (`WhitelistOnTip`). A correct answer
  white-lists a user who was black-listed in the meantime (`CheckAnswer`).
- In the challenge chain, only the wrong-answer path re-checks the lists. The
  cooldown, prompt and delivery timers re-arm a check for a user who was
  black-listed or white-listed meanwhile (`RunCooldownEnd`, `RunPrompt`,
  `RunDeliver`).
- The import is not atomic. The black list is replaced before a bad white-list
  field fails (`ImportNotAtomic`).
- A tip white-lists whatever its amount.
- The operands are not uniform: 1 and 9 are drawn half as often as the others
  (`DrawOperand`).

Configuration values come from `src/index.ts:1-28`: the prefix `"/guard "`, the
command names and the `-add`/`-remove` flags.

## Model

| member | source | states |
|---|---|---|
| AccessControl.Pushes | src/controllers/accesscontrol.ts:16-61 | the pushes for a run of claims keep exactly the claims whose attribute holds, and keep them duplicate-free |
| AccessControl.PushOrderComplete | src/controllers/accesscontrol.ts:19-58 | the push order names each of the 14 claims, each once |
| AccessControl.GetClaims | src/controllers/accesscontrol.ts:16-61 | a claim is in the array exactly when its attribute holds (user is the developer, the room owner, a helper; is_mod; in_fanclub; has_tokens for IS_LIGHTBLUE/HAS_TOKENS/HAS_TOKEN; the three tip tiers for their two claims each); no claim appears twice |
| AccessControl.HasClaim | src/controllers/accesscontrol.ts:12-14 | true exactly when the claim's attribute holds |
| AccessControl.HasAnyClaim | src/controllers/accesscontrol.ts:68-73 | true exactly when some wanted claim's attribute holds |
| AccessControl.HasPermission | src/controllers/accesscontrol.ts:63-93 | the developer passes every tier; otherwise DEV is refused, MOD is broadcaster or (toggle and moderator), SUPERUSER is broadcaster or (toggle and moderator or helper), USER is broadcaster, moderator, helper, fan or token holder |
| AccessControl.DevOverride | src/controllers/accesscontrol.ts:64-66 | the developer passes every tier under either moderator toggle |
| AccessControl.PermissionMonotone | src/controllers/accesscontrol.ts:76-89 | MOD implies SUPERUSER and SUPERUSER implies USER |
| AccessControl.DevTierOnlyForDev | src/controllers/accesscontrol.ts:90-91 | nobody but the developer holds the DEV tier |
| AccessControl.TopTipperAloneIsNotUser | src/controllers/accesscontrol.ts:39-58 | tip tiers are not cumulative: a top tipper with no other attribute has only IS_DARKPURPLE and HAS_TIPPED_TONS_RECENTLY, no HAS_TOKEN, and is not USER |
| MathCaptcha.TrimStart | src/controllers/mathcaptcha.ts:11 | parseInt drops a leading run of white space and nothing more: the result is a suffix, the dropped prefix is all white space, and the result does not start with white space |
| MathCaptcha.DigitRun | src/controllers/mathcaptcha.ts:11 | the digits parseInt reads: a prefix of the text, all digits, and followed by the end or by a non-digit |
| MathCaptcha.ParseDigitsReads | src/controllers/mathcaptcha.ts:11 | after the sign: NaN when the digit run is empty, otherwise the value of the longest digit run, whatever follows it |
| MathCaptcha.SignOf | src/controllers/mathcaptcha.ts:11 | the sign parseInt reads is written at the front of the text, and no sign is read when the text starts with neither '+' nor '-' |
| MathCaptcha.ParseTrimmedReads | src/controllers/mathcaptcha.ts:11 | after the white space: NaN when no digit follows the optional sign, otherwise the signed value of the longest digit run |
| MathCaptcha.ParseIntReads | src/controllers/mathcaptcha.ts:11 | `parseInt(s, 10)` in one statement: white space skipped, optional sign, NaN for an empty digit run, otherwise the run's value with its sign |
| MathCaptcha.CheckReads | src/controllers/mathcaptcha.ts:10-13 | the checker closure accepts exactly when that signed digit run equals the expected sum |
| MathCaptcha.TrimStartSkipsWhiteSpace | src/controllers/mathcaptcha.ts:11 | white space followed by a non-white-space start trims to that start |
| MathCaptcha.ReadDigitsStops | src/controllers/mathcaptcha.ts:11 | the digit run's value ignores whatever non-digit text follows |
| MathCaptcha.ReadDigitsAppend | src/controllers/mathcaptcha.ts:11 | one more digit multiplies the value by ten and adds the digit |
| MathCaptcha.ParseTrimmedOf | src/controllers/mathcaptcha.ts:11 | an optional sign, digits, then non-digit text read as the signed value of the digits |
| MathCaptcha.ParseIntOf | src/controllers/mathcaptcha.ts:11 | the same with any leading white space |
| MathCaptcha.ParseTrimmedNoDigits | src/controllers/mathcaptcha.ts:11 | an optional sign with no digit after it is NaN |
| MathCaptcha.ParseIntNoDigits | src/controllers/mathcaptcha.ts:11 | white space and an optional sign with no digit after them is NaN |
| MathCaptcha.DecimalStringDigits | src/controllers/mathcaptcha.ts:15 | the template text of n is a non-empty digit run whose value is n |
| MathCaptcha.ParseIntOfDecimal | src/controllers/mathcaptcha.ts:10-15 | round trip: parseInt reads back n from its decimal text followed by any non-digit text |
| MathCaptcha.DrawOperand | src/controllers/mathcaptcha.ts:7-8 | each operand is between 1 and 9 |
| MathCaptcha.DrawOperandRounds | src/controllers/mathcaptcha.ts:7-8 | the operand equals floor(8r + 0.5) + 1, JavaScript's rounding of the scaled draw |
| MathCaptcha.GenerateCaptcha | src/controllers/mathcaptcha.ts:2-18 | the question is the template for two operands in 1..9 and the expected sum is their sum, so it lies in 2..18; the checker accepts the sum's decimal text |
| MathCaptcha.QuestionStatesOperands | src/controllers/mathcaptcha.ts:15 | the question template starts with the first operand as parseInt reads it, and the text after "<a> plus " starts with the second |
| MathCaptcha.CheckAcceptsDecimal | src/controllers/mathcaptcha.ts:10-13 | the checker accepts the sum written in decimal |
| MathCaptcha.CheckIgnoresTrailingText | src/controllers/mathcaptcha.ts:10-13 | the sum followed by any text that does not start with a digit is accepted |
| MathCaptcha.TrimStartSpaceZero | src/controllers/mathcaptcha.ts:11 | in " 0..." only the space is skipped |
| MathCaptcha.ParseTrimmedZeroPadded | src/controllers/mathcaptcha.ts:11 | a leading zero does not change the value of a digit run |
| MathCaptcha.ParseIntZeroPadded | src/controllers/mathcaptcha.ts:11 | a space and a leading zero do not change the value of a digit run |
| MathCaptcha.ParseIntSigned | src/controllers/mathcaptcha.ts:11 | a sign directly before digits gives their value with that sign |
| MathCaptcha.CheckAcceptsLeadingZero | src/controllers/mathcaptcha.ts:10-13 | " 0" before the sum is accepted |
| MathCaptcha.CheckAcceptsPlusSign | src/controllers/mathcaptcha.ts:10-13 | "+" before the sum is accepted |
| MathCaptcha.CheckRefusesNegated | src/controllers/mathcaptcha.ts:10-13 | "-" before a positive sum is refused |
| MathCaptcha.CheckRefusesNonNumeric | src/controllers/mathcaptcha.ts:10-13 | text with no digit after the white space and sign is refused, whatever the sum |
| MathCaptcha.CheckAcceptedExamples | src/controllers/mathcaptcha.ts:10-13 | for the sum 7: "7 apples", " 07", "+7" and "7.5" are accepted |
| MathCaptcha.CheckRefusedNumbers | src/controllers/mathcaptcha.ts:10-13 | for the sum 7: "-7" and "77" are refused |
| MathCaptcha.CheckRefusedWords | src/controllers/mathcaptcha.ts:10-13 | for the sum 7: "seven" and the empty text are refused |
| CaptchaGuard.InAnyList | src/controllers/captcha-guard.ts:278-285 | a user is in some collection exactly when `deleteFromAllLists` would change the collections |
| CaptchaGuard.Evict | src/controllers/captcha-guard.ts:287-292 | the user leaves white list, black list, cooldown and armed checks; everybody else stays where they were; the command activators are untouched |
| CaptchaGuard.AddTo | src/controllers/captcha-guard.ts:197-216 | after `-add` the user is in exactly the named list and in no other collection; everybody else keeps every membership and armed sum |
| CaptchaGuard.RemoveFrom | src/controllers/captcha-guard.ts:203-219 | after `-remove` the user is not in the named list; nobody else moves and no other collection changes |
| CaptchaGuard.ImportInto | src/controllers/captcha-guard.ts:263-267 | the import succeeds exactly when the text parses and both fields are iterable; on success both lists are replaced (no merge); unparsable text or a non-iterable black field changes nothing; a non-iterable white field after an iterable black field replaces the black list only; checks and cooldowns are never touched |
| CaptchaGuard.AddIdempotent | src/controllers/captcha-guard.ts:197-224 | adding twice equals adding once, and of two adds the later one wins |
| CaptchaGuard.ImportNotAtomic | src/controllers/captcha-guard.ts:263-267 | a non-iterable white list fails the import after the black list is already replaced |
| CaptchaGuard.ExportImportRoundTrip | src/controllers/captcha-guard.ts:263-276 | importing an export restores both lists, whatever the lists became in between |
| CaptchaGuard.ExemptTierClaims | src/controllers/captcha-guard.ts:297-308 | the first four pushes are the tier claims whose toggle is off, once each |
| CaptchaGuard.ExemptRoleClaims | src/controllers/captcha-guard.ts:309-317 | the last three pushes are the role claims whose toggle is off, once each |
| CaptchaGuard.WhitelistedClaims | src/controllers/captcha-guard.ts:294-320 | a claim is returned exactly when its `captcha_*` toggle is off; no claim twice |
| CaptchaGuard.SharesClaimIsExempt | src/controllers/captcha-guard.ts:55-56 | the array test equals exemption: some claim both held and exempted |
| CaptchaGuard.ExemptByAttributes | src/controllers/captcha-guard.ts:53-58 | exemption as a formula over attributes and toggles; helpers, the developer and `captcha_grey` play no part |
| CaptchaGuard.TrimEnd | src/controllers/captcha-guard.ts:117 | a prefix of the text that does not end in white space, and what is dropped behind it is all white space |
| CaptchaGuard.Trim | src/controllers/captcha-guard.ts:117 | the text is the result with only white space added in front and behind, and the result neither starts nor ends with white space |
| CaptchaGuard.Split | src/controllers/captcha-guard.ts:117 | the pieces hold no space, written one after the other they give the text without its spaces, and only the first and the last piece can be empty; the empty text gives one empty piece; joined with one space the pieces give the text with every run of spaces shrunk to one (`Squeeze`), so the text is cut at its space runs and nowhere else |
| CaptchaGuard.SplitJoinRoundTrip | src/controllers/captcha-guard.ts:172 | joining the split pieces with one space gives back any text in which no two spaces stand side by side |
| CaptchaGuard.ToLower | src/controllers/captcha-guard.ts:123 | lower-cases character by character, length kept |
| CaptchaGuard.ParseCommand | src/controllers/captcha-guard.ts:117-224 | "debug" needs MOD and every other command SUPERUSER; conversely a permitted "debug", "reload", "import", "export", "clear", "blacklist" or "whitelist" (any case) is that command, with `-add`/`-remove` as written and the user name as the next argument, usage text otherwise; IMPORT hands the rest of the words joined by one space to the parser; any other word is no command |
| CaptchaGuard.Effect | src/controllers/captcha-guard.ts:139-224 | commands that only answer change nothing; CLEAR empties all five collections, the command activators included; the imports never touch checks or cooldowns; a list command moves nobody but its target; only CLEAR touches the command activators |
| CaptchaGuard.Replies | src/controllers/captcha-guard.ts:139-224 | every command but EXPORT and an unknown word answers with exactly one notice, and every notice goes to the sender |
| CaptchaGuard.ToArray | src/controllers/captcha-guard.ts:271-272 | `Array.from` of a set lists every element exactly once |
| CaptchaGuard.Guard.constructor | src/controllers/captcha-guard.ts:16-31 | empty collections and no timers; a non-empty `import_list` is imported, and the room owner is told of success or failure; the invariant holds |
| CaptchaGuard.Guard.GetWhitelistedClaims | src/controllers/captcha-guard.ts:294-320 | the pushed array equals `WhitelistedClaims` |
| CaptchaGuard.Guard.IsExempt | src/controllers/captcha-guard.ts:55-56 | true exactly when the origin holds an exempting claim |
| CaptchaGuard.Guard.CheckAndAddToLists | src/controllers/captcha-guard.ts:53-72 | a listed user is left alone; an exempt user is white-listed; anybody else is prompted and a delivery of a freshly drawn challenge is scheduled; only then true |
| CaptchaGuard.Guard.CheckAnswer | src/controllers/captcha-guard.ts:74-105 | for a user with an armed check the message is marked and the check dropped; a correct answer white-lists the user; a wrong one puts an unlisted user on cooldown with its timer; other messages pass unchanged |
| CaptchaGuard.Guard.AcceptAnswer | src/controllers/captcha-guard.ts:83-85 | the user is congratulated and white-listed |
| CaptchaGuard.Guard.PenalizeWrongAnswer | src/controllers/captcha-guard.ts:86-102 | only a user in no collection is told off, put on cooldown and given the cooldown timer |
| CaptchaGuard.Guard.RunDeliver | src/controllers/captcha-guard.ts:62-66 | the question is sent and the check armed with its sum, whatever the user's lists; the expiry is scheduled |
| CaptchaGuard.Guard.RunExpire | src/controllers/captcha-guard.ts:65 | the user's check is dropped, even one armed again since |
| CaptchaGuard.Guard.RunCooldownEnd | src/controllers/captcha-guard.ts:90-102 | the cooldown ends, a new challenge is drawn and its announcement scheduled, without looking at the lists |
| CaptchaGuard.Guard.RunPrompt | src/controllers/captcha-guard.ts:94-101 | the user is told a question follows and its delivery is scheduled |
| CaptchaGuard.Guard.FilterMessage | src/controllers/captcha-guard.ts:229-255 | a white-listed, not black-listed sender or an already-marked message passes unchanged; otherwise the message is marked and, when reporting, exactly one notice goes to the sender |
| CaptchaGuard.Guard.WhitelistOnTip | src/controllers/captcha-guard.ts:257-261 | with `whitelist_tip` on, the tipper joins the white list whatever the amount; nothing else changes |
| CaptchaGuard.Guard.ImportFromJson | src/controllers/captcha-guard.ts:263-267 | the new state and the outcome are those of `ImportInto` |
| CaptchaGuard.Guard.ExportToJson | src/controllers/captcha-guard.ts:269-276 | the snapshot holds exactly the black and white lists, each name once |
| CaptchaGuard.Guard.DeleteFromAllLists | src/controllers/captcha-guard.ts:287-292 | the new state is `Evict` of the old one |
| CaptchaGuard.Guard.CommandOf | src/controllers/captcha-guard.ts:117-141 | the command of a prefixed message: DEBUG only for a MOD sender, every other command only for a SUPERUSER sender |
| CaptchaGuard.Guard.HandleCommands | src/controllers/captcha-guard.ts:107-227 | text without the prefix is ignored; a prefixed message is marked, its command changes the collections as `Effect` states, and the sender gets the replies `Replies` states, or an export of exactly both lists |
| CaptchaGuard.Guard.RunCommand | src/controllers/captcha-guard.ts:139-225 | the collections change as `Effect` states and the sender gets the reply of `Replies`; an export reply carries both lists |
| CaptchaGuard.Guard.RunExport | src/controllers/captcha-guard.ts:181-184 | one reply holding exactly the two lists |
| CaptchaGuard.Guard.RunOther | src/controllers/captcha-guard.ts:144-196 | DEBUG, RELOAD, IMPORT, CLEAR and the usage texts change the collections as `Effect` states and reply as `Replies` states |
| CaptchaGuard.Guard.RunAdd | src/controllers/captcha-guard.ts:197-202 | `-add` evicts the target from every collection and inserts it into the named list |
| CaptchaGuard.Guard.RunRemove | src/controllers/captcha-guard.ts:203-205 | `-remove` takes the target out of the named list only |

## Left out

- Message colours, weights and wording: notices are modelled by their kind and
  recipient only.
- The recolouring of a suppressed chat message (`message.c` and
  `message.background` set to greys next to the spam mark,
  `src/controllers/captcha-guard.ts:77-78, 114-115, 239-240`): the model keeps
  only the spam mark.
- `JSON.parse` and `JSON.stringify` are foreign code. The parser is a parameter
  of the guard (`parseJson`). Its result is modelled only as far as
  `importFromJson` reads it: unparsable, or two fields that are absent, an
  iterable of names, or not iterable. The one fact assumed of the parser is
  that the empty text does not parse, as with `JSON.parse("")`; an IMPORT with
  no words after it hands the empty text to the parser. A string field, which
  `new Set` iterates character by character, and arrays holding non-strings are
  not modelled.
- The `undefined` target of a `-add`/`-remove` without a user name: the source
  adds or deletes the value `undefined`. The model leaves the lists unchanged
  and still sends the reply.
- The regular expression in `split(/ +/g)` is written out as `Split`.
- `toLowerCase` covers only A-Z and the Kelvin sign. These are the only
  characters whose lower-case form can turn a command word into one of the
  ASCII command names.
- The command-cooldown path (`coolDownCommands` is always empty) and the
  SUPPORT command (absent from the configuration) are dead code and are not
  modelled.
- Timer durations and the settings form (`initCBSettings`): the model only
  records which continuations are pending. `recentCommandActivators` is
  modelled only as far as CLEAR empties it.
- `Math.random` becomes the real parameters `r1`, `r2` in [0, 1).
- JavaScript numbers are doubles. The model uses exact integers. This matters
  only for digit runs longer than 15 digits, where `parseInt` rounds.
- Strings are sequences of characters, not UTF-16 code units.
- `sendDevInfo` and `sendStatusInfo` only send messages and are not modelled.
- The content of the DEBUG dump is not modelled.
- The order in which `Array.from` lists a set's elements (insertion order) is
  not fixed by the model.
- The wiring of the handlers in `src/index.ts` (enter, message, tip) is not
  part of this model. Each handler it calls is modelled.
