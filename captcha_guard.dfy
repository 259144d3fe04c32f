/** The verification state machine of src/controllers/captcha-guard.ts: who is
    white-listed, black-listed, on cooldown or being challenged, how a chat message,
    a tip or a command moves a user between those collections, and which notices are
    sent. The host's ambient objects become explicit values: the room owner's name,
    the settings toggles, the JSON parser, the random draws of a new challenge, and
    the timers the code schedules, which the host runs later in any order. */
module CaptchaGuard {
  import opened AccessControl
  import MathCaptcha

  datatype Option<T> = None | Some(value: T)

  // ---------------------------------------------------------------------------
  // Host values

  /** The broadcaster's settings after `initCBSettings` (each "Yes"/"No" choice read
      as a boolean). `importList` is the raw `import_list` text; an absent setting
      reads as the empty text. */
  datatype Settings = Settings(
    captchaGrey: bool,
    captchaLightblue: bool,
    captchaDarkblue: bool,
    captchaLightpurple: bool,
    captchaDarkpurple: bool,
    captchaFanclub: bool,
    captchaMods: bool,
    captchaBroadcaster: bool,
    whitelistTip: bool,
    allowModSuperuserCmd: bool,
    importList: string)

  /** A chat message: its sender's attributes, its text and its "X-Spam" flag. */
  datatype Message = Message(origin: Origin, text: string, xSpam: bool)

  datatype Tip = Tip(fromUser: string, amount: int)

  /** What `new Set(x)` makes of one field of a parsed import: `undefined` or `null`
      gives the empty set, an iterable gives its elements, anything else throws. */
  datatype Field = Absent | Items(names: seq<string>) | NotIterable

  /** The outcome of `JSON.parse` on an import text: a syntax error, or an object
      whose `blackListed` and `whiteListed` fields are read by `importFromJson`. */
  datatype Payload = Unparsable | Parsed(blackField: Field, whiteField: Field)

  /** The object `exportToJson` serialises: both lists as arrays. */
  datatype Snapshot = Snapshot(blackListed: seq<string>, whiteListed: seq<string>)

  datatype ListName = Black | White

  /** The notices the guard sends, by the situation they report. */
  datatype NoticeKind =
    | SolvePrompt                      // "Please solve the following question ..."
    | QuestionText(question: string)
    | CaptchaCorrect
    | WrongAnswer
    | CooldownOver
    | NotSentInCheck
    | NotSentBlacklisted
    | NotSentOnCooldown
    | NotSentUnlisted
    | ImportedFromSettings
    | ImportedGiven
    | ImportFailed
    | NothingToReload
    | Exported(lists: Snapshot)
    | Cleared
    | Added(list: ListName, target: Option<string>)
    | Removed(list: ListName, target: Option<string>)
    | Usage(list: ListName)
    | DebugDump

  datatype Notice = Notice(kind: NoticeKind, to: string)

  /** A continuation handed to `cb.setTimeout`, with what it captured:
      Deliver shows the question and arms the check, Expire drops the check,
      CooldownEnd ends a cooldown and draws a new challenge, Prompt announces it. */
  datatype Timer =
    | Deliver(user: string, captcha: MathCaptcha.Captcha)
    | Expire(user: string)
    | CooldownEnd(user: string)
    | Prompt(user: string, captcha: MathCaptcha.Captcha)

  // ---------------------------------------------------------------------------
  // The collections as a value

  /** The five collections; `inCheck` maps a user to the sum their checker expects. */
  datatype Lists = Lists(
    whiteListed: set<string>,
    blackListed: set<string>,
    onCooldown: set<string>,
    inCheck: map<string, int>,
    recentCommandActivators: set<string>)

  const NoLists := Lists({}, {}, {}, map[], {})

  /** `isInAnyList`: the user is in some collection exactly when
      `deleteFromAllLists` would change the collections. */
  predicate InAnyList(s: Lists, user: string)
    ensures InAnyList(s, user) <==> Evict(s, user) != s
  {
    if user in s.inCheck || user in s.onCooldown || user in s.whiteListed || user in s.blackListed then
      assert user !in Evict(s, user).whiteListed || user !in Evict(s, user).blackListed
        || user !in Evict(s, user).onCooldown || user !in Evict(s, user).inCheck;
      true
    else
      assert s.inCheck - {user} == s.inCheck;
      false
  }

  function Elements(xs: seq<string>): (r: set<string>)
    ensures forall x :: x in r <==> x in xs
  {
    set x | x in xs
  }

  /** `deleteFromAllLists`: the user leaves the four user collections; nobody else
      moves. */
  function Evict(s: Lists, user: string): (r: Lists)
    ensures user !in r.whiteListed && user !in r.blackListed && user !in r.onCooldown && user !in r.inCheck
    ensures forall v :: v != user ==>
      (v in r.whiteListed <==> v in s.whiteListed) && (v in r.blackListed <==> v in s.blackListed)
      && (v in r.onCooldown <==> v in s.onCooldown)
    ensures forall v :: v != user && v in s.inCheck ==> v in r.inCheck && r.inCheck[v] == s.inCheck[v]
    ensures forall v :: v in r.inCheck ==> v in s.inCheck
    ensures r.recentCommandActivators == s.recentCommandActivators
  {
    Lists(s.whiteListed - {user}, s.blackListed - {user}, s.onCooldown - {user},
          s.inCheck - {user}, s.recentCommandActivators)
  }

  /** The `-add` arm of the black-list and white-list commands: evict, then insert.
      Afterwards the user is in exactly the named list and in no other collection,
      and everybody else is where they were. */
  function AddTo(s: Lists, list: ListName, user: string): (r: Lists)
    ensures (user in r.blackListed <==> list == Black) && (user in r.whiteListed <==> list == White)
    ensures user !in r.onCooldown && user !in r.inCheck
    ensures forall v :: v != user ==>
      (v in r.whiteListed <==> v in s.whiteListed) && (v in r.blackListed <==> v in s.blackListed)
      && (v in r.onCooldown <==> v in s.onCooldown) && (v in r.inCheck <==> v in s.inCheck)
      && (v in s.inCheck ==> r.inCheck[v] == s.inCheck[v])
    ensures r.recentCommandActivators == s.recentCommandActivators
  {
    var e := Evict(s, user);
    assert user !in e.whiteListed && user !in e.blackListed;
    match list
    case Black => e.(blackListed := e.blackListed + {user})
    case White => e.(whiteListed := e.whiteListed + {user})
  }

  /** The `-remove` arm: the user leaves the named list; nobody else moves, and no
      other collection changes. */
  function RemoveFrom(s: Lists, list: ListName, user: string): (r: Lists)
    ensures user !in (if list == Black then r.blackListed else r.whiteListed)
    ensures forall v :: v != user ==> (v in r.blackListed <==> v in s.blackListed) && (v in r.whiteListed <==> v in s.whiteListed)
    ensures list == Black ==> r.whiteListed == s.whiteListed
    ensures list == White ==> r.blackListed == s.blackListed
    ensures r.onCooldown == s.onCooldown && r.inCheck == s.inCheck
    ensures r.recentCommandActivators == s.recentCommandActivators
  {
    if list == Black then s.(blackListed := s.blackListed - {user})
    else s.(whiteListed := s.whiteListed - {user})
  }

  function FieldSet(f: Field): set<string> {
    match f
    case Items(names) => Elements(names)
    case _ => {}
  }

  datatype ImportResult = ImportResult(lists: Lists, ok: bool)

  /** `importFromJson` on a parsed payload: the black list is replaced first, then
      the white list; a field that `new Set` cannot iterate throws at its own
      assignment, after the earlier one has already happened. */
  function ImportInto(s: Lists, p: Payload): (r: ImportResult)
    ensures r.ok <==> p.Parsed? && !p.blackField.NotIterable? && !p.whiteField.NotIterable?
    ensures r.ok ==> r.lists == s.(blackListed := FieldSet(p.blackField), whiteListed := FieldSet(p.whiteField))
    ensures !r.ok ==> r.lists.whiteListed == s.whiteListed
    ensures p.Unparsable? || p.blackField.NotIterable? ==> r.lists == s
    ensures p.Parsed? && !p.blackField.NotIterable? && p.whiteField.NotIterable? ==>
      r.lists == s.(blackListed := FieldSet(p.blackField))
    ensures r.lists.inCheck == s.inCheck && r.lists.onCooldown == s.onCooldown
    ensures r.lists.recentCommandActivators == s.recentCommandActivators
  {
    match p
    case Unparsable => ImportResult(s, false)
    case Parsed(b, w) =>
      if b.NotIterable? then ImportResult(s, false)
      else
        var s1 := s.(blackListed := FieldSet(b));
        if w.NotIterable? then ImportResult(s1, false)
        else ImportResult(s1.(whiteListed := FieldSet(w)), true)
  }

  /** Adding twice is adding once, and of two adds the later one wins. */
  lemma AddIdempotent(s: Lists, l1: ListName, l2: ListName, user: string)
    ensures AddTo(AddTo(s, l1, user), l1, user) == AddTo(s, l1, user)
    ensures AddTo(AddTo(s, l1, user), l2, user) == AddTo(s, l2, user)
  {
  }

  /** Import is not atomic: a payload whose white list is not iterable still replaces
      the black list before it fails. */
  lemma ImportNotAtomic(s: Lists, names: seq<string>)
    ensures var r := ImportInto(s, Parsed(Items(names), NotIterable));
      !r.ok && r.lists.blackListed == Elements(names) && r.lists.whiteListed == s.whiteListed
  {
  }

  /** Export then import gives back both lists, whatever order the export used and
      whatever the lists were in between. */
  lemma ExportImportRoundTrip(s: Lists, snap: Snapshot, t: Lists)
    requires Elements(snap.blackListed) == s.blackListed && Elements(snap.whiteListed) == s.whiteListed
    ensures var r := ImportInto(t, Parsed(Items(snap.blackListed), Items(snap.whiteListed)));
      r.ok && r.lists.blackListed == s.blackListed && r.lists.whiteListed == s.whiteListed
      && r.lists.inCheck == t.inCheck && r.lists.onCooldown == t.onCooldown
  {
  }

  // ---------------------------------------------------------------------------
  // Claims that skip the challenge

  /** Reference definition for `getWhitelistedClaims`: a claim exempts from the
      challenge exactly when its `captcha_*` toggle is off. Only seven claims have a
      toggle; `captcha_grey` is not consulted. */
  predicate ExemptClaim(st: Settings, c: Claim) {
    match c
    case IsLightBlue => !st.captchaLightblue
    case IsDarkBlue => !st.captchaDarkblue
    case IsLightPurple => !st.captchaLightpurple
    case IsDarkPurple => !st.captchaDarkpurple
    case InFanclub => !st.captchaFanclub
    case IsMod => !st.captchaMods
    case IsBroadcaster => !st.captchaBroadcaster
    case _ => false
  }

  /** The origin holds some exempting claim. */
  predicate Exempt(st: Settings, ev: Evaluator, o: Origin, roomSlug: string) {
    exists c :: ExemptClaim(st, c) && Grants(ev, o, roomSlug, c)
  }

  /** The first four pushes of `getWhitelistedClaims`: the token and tip tiers. */
  function ExemptTierClaims(st: Settings): (claims: seq<Claim>)
    ensures forall c :: c in claims <==> !IsRoleClaim(c) && ExemptClaim(st, c)
    ensures Distinct(claims)
  {
    (if !st.captchaLightblue then [IsLightBlue] else [])
    + (if !st.captchaDarkblue then [IsDarkBlue] else [])
    + (if !st.captchaLightpurple then [IsLightPurple] else [])
    + (if !st.captchaDarkpurple then [IsDarkPurple] else [])
  }

  /** The last three pushes: fan club, moderators, broadcaster. */
  function ExemptRoleClaims(st: Settings): (claims: seq<Claim>)
    ensures forall c :: c in claims <==> IsRoleClaim(c) && ExemptClaim(st, c)
    ensures Distinct(claims)
  {
    (if !st.captchaFanclub then [InFanclub] else [])
    + (if !st.captchaMods then [IsMod] else [])
    + (if !st.captchaBroadcaster then [IsBroadcaster] else [])
  }

  /** The last three pushes of `getWhitelistedClaims`, onto any prefix. */
  lemma RolePushes(st: Settings, prefix: seq<Claim>, claims: seq<Claim>)
    requires claims == prefix + (if !st.captchaFanclub then [InFanclub] else [])
                             + (if !st.captchaMods then [IsMod] else [])
                             + (if !st.captchaBroadcaster then [IsBroadcaster] else [])
    ensures claims == prefix + ExemptRoleClaims(st)
  {
  }

  /** The claims `getWhitelistedClaims` returns: each exempting claim exactly once. */
  function WhitelistedClaims(st: Settings): (claims: seq<Claim>)
    ensures forall c :: c in claims <==> ExemptClaim(st, c)
    ensures Distinct(claims)
  {
    var tiers, roles := ExemptTierClaims(st), ExemptRoleClaims(st);
    DisjointConcat(tiers, roles);
    tiers + roles
  }

  /** Two distinct sequences with no common element concatenate to a distinct one. */
  lemma DisjointConcat<T>(xs: seq<T>, ys: seq<T>)
    requires Distinct(xs) && Distinct(ys)
    requires forall x :: x in xs ==> x !in ys
    ensures Distinct(xs + ys)
  {
    forall i, j | 0 <= i < j < |xs + ys| ensures (xs + ys)[i] != (xs + ys)[j] {
      if i < |xs| && |xs| <= j {
        assert xs[i] in xs && ys[j - |xs|] in ys;
      }
    }
  }

  /** `userClaims.some((claim) => whitelisted.includes(claim))`. */
  predicate SharesClaim(userClaims: seq<Claim>, exempting: seq<Claim>) {
    exists c | c in userClaims :: c in exempting
  }

  /** The test `checkAndAddToLists` makes on the two claim arrays is exemption. */
  lemma SharesClaimIsExempt(st: Settings, ev: Evaluator, o: Origin, roomSlug: string)
    ensures SharesClaim(GetClaims(ev, o, roomSlug), WhitelistedClaims(st)) <==> Exempt(st, ev, o, roomSlug)
  {
    var userClaims, exempting := GetClaims(ev, o, roomSlug), WhitelistedClaims(st);
    if Exempt(st, ev, o, roomSlug) {
      var c :| ExemptClaim(st, c) && Grants(ev, o, roomSlug, c);
      assert c in userClaims && c in exempting;
    }
  }

  /** Exemption read off the attributes: each toggle lets through the users with its
      own attribute; helpers, the developer and `captcha_grey` play no part. */
  lemma ExemptByAttributes(st: Settings, ev: Evaluator, o: Origin, roomSlug: string)
    ensures Exempt(st, ev, o, roomSlug) <==>
      (o.hasTokens && !st.captchaLightblue) || (o.tippedRecently && !st.captchaDarkblue)
      || (o.tippedAlotRecently && !st.captchaLightpurple)
      || (o.tippedTonsRecently && !st.captchaDarkpurple)
      || (o.inFanclub && !st.captchaFanclub) || (o.isMod && !st.captchaMods)
      || (o.user == roomSlug && !st.captchaBroadcaster)
  {
    if o.hasTokens && !st.captchaLightblue {
      assert ExemptClaim(st, IsLightBlue) && Grants(ev, o, roomSlug, IsLightBlue);
    }
    if o.tippedRecently && !st.captchaDarkblue {
      assert ExemptClaim(st, IsDarkBlue) && Grants(ev, o, roomSlug, IsDarkBlue);
    }
    if o.tippedAlotRecently && !st.captchaLightpurple {
      assert ExemptClaim(st, IsLightPurple) && Grants(ev, o, roomSlug, IsLightPurple);
    }
    if o.tippedTonsRecently && !st.captchaDarkpurple {
      assert ExemptClaim(st, IsDarkPurple) && Grants(ev, o, roomSlug, IsDarkPurple);
    }
    if o.inFanclub && !st.captchaFanclub {
      assert ExemptClaim(st, InFanclub) && Grants(ev, o, roomSlug, InFanclub);
    }
    if o.isMod && !st.captchaMods {
      assert ExemptClaim(st, IsMod) && Grants(ev, o, roomSlug, IsMod);
    }
    if o.user == roomSlug && !st.captchaBroadcaster {
      assert ExemptClaim(st, IsBroadcaster) && Grants(ev, o, roomSlug, IsBroadcaster);
    }
  }

  // ---------------------------------------------------------------------------
  // Command text

  /** The `Prefix` of the configuration in src/index.ts. */
  const Prefix := "/guard "

  predicate StartsWith(s: string, prefix: string) {
    |prefix| <= |s| && s[..|prefix|] == prefix
  }

  /** `String.prototype.trim` drops the same white space as parseInt skips. */
  function TrimEnd(s: string): (r: string)
    ensures |r| <= |s| && r == s[..|r|]
    ensures MathCaptcha.AllWhiteSpace(s[|r|..])
    ensures r == [] || !MathCaptcha.IsStrWhiteSpace(r[|r| - 1])
  {
    if s != [] && MathCaptcha.IsStrWhiteSpace(s[|s| - 1]) then
      var init := s[..|s| - 1];
      var r := TrimEnd(init);
      assert s[|r|..] == init[|r|..] + [s[|s| - 1]];
      r
    else s
  }

  /** `trim`: the text with the white space at both ends dropped, and nothing else:
      what is dropped in front and behind is all white space, and what is kept
      neither starts nor ends with it. */
  function Trim(s: string): (r: string)
    ensures |r| <= |s|
    ensures exists front: string, back: string ::
      s == front + r + back && MathCaptcha.AllWhiteSpace(front) && MathCaptcha.AllWhiteSpace(back)
    ensures r == [] || (!MathCaptcha.IsStrWhiteSpace(r[0]) && !MathCaptcha.IsStrWhiteSpace(r[|r| - 1]))
  {
    var t := MathCaptcha.TrimStart(s);
    var r := TrimEnd(t);
    Regroup(s, s[..|s| - |t|], t, r, t[|r|..]);
    r
  }

  /** Cutting a text in front and then behind leaves its middle. */
  lemma Regroup(s: string, front: string, t: string, r: string, back: string)
    requires |front| <= |s| && front == s[..|front|] && t == s[|front|..]
    requires |r| <= |t| && r == t[..|r|] && back == t[|r|..]
    ensures s == front + r + back
    ensures r != [] ==> r[0] == t[0]
  {
    assert s == front + t && t == r + back;
  }

  /** Length of the text before the first space. */
  function WordLength(s: string): (n: nat)
    ensures n <= |s| && ' ' !in s[..n]
    ensures n < |s| ==> s[n] == ' '
  {
    if s == [] || s[0] == ' ' then 0 else 1 + WordLength(s[1..])
  }

  function SkipSpaces(s: string): (r: string)
    ensures |r| <= |s|
    ensures s != [] && s[0] == ' ' ==> |r| < |s|
    ensures r == [] || r[0] != ' '
    ensures Unspaced(r) == Unspaced(s)
  {
    if s != [] && s[0] == ' ' then SkipSpaces(s[1..]) else s
  }

  /** The text with every space taken out. */
  function Unspaced(s: string): string {
    if s == [] then [] else (if s[0] == ' ' then [] else [s[0]]) + Unspaced(s[1..])
  }

  /** The pieces written one after the other. */
  function Concat(words: seq<string>): string {
    if words == [] then [] else words[0] + Concat(words[1..])
  }

  lemma {:induction false} UnspacedAppend(a: string, b: string)
    ensures Unspaced(a + b) == Unspaced(a) + Unspaced(b)
  {
    if a == [] {
      assert a + b == b;
    } else {
      assert (a + b)[0] == a[0] && (a + b)[1..] == a[1..] + b;
      UnspacedAppend(a[1..], b);
    }
  }

  lemma {:induction false} UnspacedOfWord(w: string)
    requires ' ' !in w
    ensures Unspaced(w) == w
  {
    if w != [] {
      assert w[0] in w && ' ' !in w[1..];
      UnspacedOfWord(w[1..]);
    }
  }

  /** The text with every run of spaces shrunk to one space. */
  function Squeeze(s: string): string {
    if |s| < 2 then s
    else if s[0] == ' ' && s[1] == ' ' then Squeeze(s[1..])
    else [s[0]] + Squeeze(s[1..])
  }

  /** Squeezing passes a word through untouched. */
  lemma {:induction false} SqueezeAfterWord(w: string, t: string)
    requires ' ' !in w
    ensures Squeeze(w + t) == w + Squeeze(t)
  {
    if w != [] {
      assert w[0] in w && ' ' !in w[1..];
      assert (w + t)[1..] == w[1..] + t;
      SqueezeAfterWord(w[1..], t);
    } else {
      assert w + t == t;
    }
  }

  /** A run of spaces squeezes to one space before what follows it. */
  lemma {:induction false} SqueezeSpaces(u: string)
    requires u != [] && u[0] == ' '
    ensures Squeeze(u) == " " + Squeeze(SkipSpaces(u))
    decreases |u|
  {
    if |u| >= 2 && u[1] == ' ' {
      SqueezeSpaces(u[1..]);
    }
  }

  /** `split(/ +/g)`: the pieces between maximal runs of spaces. No piece holds a
      space, written one after the other they give every other character of the
      text in order, and only the first and the last piece may be empty (when the
      text starts or ends with spaces). Joined with one space they give the text
      with every run of spaces shrunk to one, so the cuts are exactly the runs. */
  function Split(s: string): (words: seq<string>)
    ensures |words| > 0
    ensures forall i :: 0 <= i < |words| ==> ' ' !in words[i]
    ensures Concat(words) == Unspaced(s)
    ensures forall i :: 0 < i < |words| - 1 ==> words[i] != []
    ensures s == [] ==> words == [[]]
    ensures s != [] && s[0] != ' ' ==> words[0] != []
    ensures Join(words, " ") == Squeeze(s)
    decreases |s|
  {
    var n := WordLength(s);
    if n == |s| then
      UnspacedOfWord(s);
      assert Concat([s]) == s + Concat([]);
      SqueezeAfterWord(s, []);
      assert s + [] == s;
      [s]
    else
      var w := s[..n];
      var rest := Split(SkipSpaces(s[n..]));
      assert s == w + s[n..];
      UnspacedAppend(w, s[n..]);
      UnspacedOfWord(w);
      SqueezeAfterWord(w, s[n..]);
      SqueezeSpaces(s[n..]);
      assert ([w] + rest)[1..] == rest;
      [w] + rest
  }

  function Join(words: seq<string>, sep: string): string {
    if words == [] then "" else if |words| == 1 then words[0] else words[0] + sep + Join(words[1..], sep)
  }

  /** Text in which no two spaces stand side by side. */
  ghost predicate NoDoubleSpace(s: string) {
    forall i :: 0 <= i < |s| - 1 ==> s[i] != ' ' || s[i + 1] != ' '
  }

  /** A text with no two spaces side by side squeezes to itself. */
  lemma {:induction false} SqueezeNoDoubleSpace(s: string)
    requires NoDoubleSpace(s)
    ensures Squeeze(s) == s
    decreases |s|
  {
    if |s| >= 2 {
      var t := s[1..];
      forall i | 0 <= i < |t| - 1 ensures t[i] != ' ' || t[i + 1] != ' ' {
        assert t[i] == s[i + 1] && t[i + 1] == s[i + 2];
      }
      assert NoDoubleSpace(t);
      SqueezeNoDoubleSpace(t);
      assert s[0] != ' ' || s[1] != ' ';
      assert s == [s[0]] + t;
    }
  }

  /** Splitting on space runs and joining with one space gives back any text in
      which no two spaces stand side by side, so IMPORT hands such a JSON text to
      the parser unchanged. */
  lemma SplitJoinRoundTrip(s: string)
    requires NoDoubleSpace(s)
    ensures Join(Split(s), " ") == s
  {
    SqueezeNoDoubleSpace(s);
  }

  /** `toLowerCase` as far as it can matter for comparing with the lower-case ASCII
      command names: A-Z, and the Kelvin sign, which lower-cases to 'k'. */
  function LowerChar(ch: char): (r: char)
    ensures 'A' <= ch <= 'Z' ==> r as int == ch as int + 32
    ensures ch == '\U{212A}' ==> r == 'k'
    ensures !('A' <= ch <= 'Z') && ch != '\U{212A}' ==> r == ch
  {
    if 'A' <= ch <= 'Z' then (ch as int + 32) as char
    else if ch == '\U{212A}' then 'k'
    else ch
  }

  function ToLower(s: string): (r: string)
    ensures |r| == |s| && forall i :: 0 <= i < |s| ==> r[i] == LowerChar(s[i])
  {
    if s == [] then [] else [LowerChar(s[0])] + ToLower(s[1..])
  }

  /** The argument after the command, if the message has one. */
  function Arg(args: seq<string>, i: nat): Option<string> {
    if i < |args| then Some(args[i]) else None
  }

  /** The command names of the configuration in src/index.ts. */
  predicate IsCommandName(name: string) {
    name == "debug" || name == "reload" || name == "import" || name == "export" || name == "clear"
    || name == "blacklist" || name == "whitelist"
  }

  /** What a command message asks for, once dispatch and permissions are applied. */
  datatype Command =
    | NoCommand
    | Debug
    | Reload(stored: Option<Payload>)
    | Import(payload: Payload)
    | Export
    | Clear
    | ListAdd(list: ListName, target: Option<string>)
    | ListRemove(list: ListName, target: Option<string>)
    | ListUsage(list: ListName)

  /** The list commands read a flag and a user name. */
  function ListCommand(list: ListName, args: seq<string>): Command {
    var flag := Arg(args, 1);
    if flag == Some("-add") then ListAdd(list, Arg(args, 2))
    else if flag == Some("-remove") then ListRemove(list, Arg(args, 2))
    else ListUsage(list)
  }

  /** Dispatch of `handleCommands` over the split arguments: "debug" needs MOD, the
      other commands SUPERUSER; the command word is compared after lower-casing,
      flags as written. JSON text is handed to `parseJson`. */
  function ParseCommand(args: seq<string>, canMod: bool, canSuper: bool,
                        importList: string, parseJson: string -> Payload): (cmd: Command)
    ensures cmd.Debug? ==> canMod
    ensures !cmd.NoCommand? && !cmd.Debug? ==> canSuper
    ensures cmd.ListAdd? || cmd.ListRemove? || cmd.ListUsage? ==>
      args != [] && ToLower(args[0]) == (if cmd.list == Black then "blacklist" else "whitelist")
    ensures cmd.ListAdd? ==> |args| > 1 && args[1] == "-add" && cmd.target == Arg(args, 2)
    ensures cmd.ListRemove? ==> |args| > 1 && args[1] == "-remove" && cmd.target == Arg(args, 2)
    ensures cmd.ListUsage? ==> |args| == 1 || (args[1] != "-add" && args[1] != "-remove")
    ensures args != [] && canMod && ToLower(args[0]) == "debug" ==> cmd == Debug
    ensures args != [] && canSuper && ToLower(args[0]) == "reload" ==>
      cmd == Reload(if importList == "" then None else Some(parseJson(importList)))
    ensures args != [] && canSuper && ToLower(args[0]) == "import" ==> cmd == Import(parseJson(Join(args[1..], " ")))
    ensures args != [] && canSuper && ToLower(args[0]) == "export" ==> cmd == Export
    ensures args != [] && canSuper && ToLower(args[0]) == "clear" ==> cmd == Clear
    ensures args != [] && canSuper && (ToLower(args[0]) == "blacklist" || ToLower(args[0]) == "whitelist") ==>
      var list := if ToLower(args[0]) == "blacklist" then Black else White;
      cmd == if Arg(args, 1) == Some("-add") then ListAdd(list, Arg(args, 2))
             else if Arg(args, 1) == Some("-remove") then ListRemove(list, Arg(args, 2))
             else ListUsage(list)
    ensures args == [] || !IsCommandName(ToLower(args[0])) || (!canMod && ToLower(args[0]) == "debug") ==>
      cmd == NoCommand
  {
    if args == [] then NoCommand
    else
      var name := ToLower(args[0]);
      if canMod && name == "debug" then Debug
      else if !canSuper then NoCommand
      else if name == "reload" then Reload(if importList == "" then None else Some(parseJson(importList)))
      else if name == "import" then Import(parseJson(Join(args[1..], " ")))
      else if name == "export" then Export
      else if name == "clear" then Clear
      else if name == "blacklist" then ListCommand(Black, args)
      else if name == "whitelist" then ListCommand(White, args)
      else NoCommand
  }

  /** What a command does to the collections (a missing user name leaves them alone).
      Commands that only answer change nothing; CLEAR empties every collection;
      the imports replace lists only, never the challenge state; a list command moves
      nobody but its target. */
  function Effect(s: Lists, cmd: Command): (r: Lists)
    ensures cmd.NoCommand? || cmd.Debug? || cmd.Export? || cmd.ListUsage? || cmd == Reload(None) ==> r == s
    ensures cmd.Clear? ==> r == NoLists && forall u :: !InAnyList(r, u)
    ensures cmd.Reload? || cmd.Import? ==> r.inCheck == s.inCheck && r.onCooldown == s.onCooldown
    ensures cmd.ListAdd? || cmd.ListRemove? ==> forall v :: Some(v) != cmd.target ==>
      (v in r.whiteListed <==> v in s.whiteListed) && (v in r.blackListed <==> v in s.blackListed)
      && (v in r.onCooldown <==> v in s.onCooldown) && (v in r.inCheck <==> v in s.inCheck)
    ensures !cmd.Clear? ==> r.recentCommandActivators == s.recentCommandActivators
  {
    match cmd
    case Reload(Some(p)) => ImportInto(s, p).lists
    case Import(p) => ImportInto(s, p).lists
    case Clear => NoLists
    case ListAdd(list, Some(u)) => AddTo(s, list, u)
    case ListRemove(list, Some(u)) => RemoveFrom(s, list, u)
    case _ => s
  }

  /** The notice a command answers with; the export reply, which carries the lists,
      is stated where the command runs. */
  function Replies(s: Lists, cmd: Command, user: string): (r: seq<Notice>)
    ensures |r| == if cmd.NoCommand? || cmd.Export? then 0 else 1
    ensures forall n :: n in r ==> n.to == user
  {
    match cmd
    case NoCommand => []
    case Debug => [Notice(DebugDump, user)]
    case Reload(None) => [Notice(NothingToReload, user)]
    case Reload(Some(p)) => [Notice(if ImportInto(s, p).ok then ImportedFromSettings else ImportFailed, user)]
    case Import(p) => [Notice(if ImportInto(s, p).ok then ImportedGiven else ImportFailed, user)]
    case Export => []
    case Clear => [Notice(Cleared, user)]
    case ListAdd(list, target) => [Notice(Added(list, target), user)]
    case ListRemove(list, target) => [Notice(Removed(list, target), user)]
    case ListUsage(list) => [Notice(Usage(list), user)]
  }

  /** `after` is `before` and one reply to `user` exporting exactly `black` and
      `white`. */
  predicate ExportReply(before: seq<Notice>, after: seq<Notice>, user: string,
                        black: set<string>, white: set<string>) {
    |after| == |before| + 1 && after[..|before|] == before
    && after[|before|].to == user && after[|before|].kind.Exported?
    && Elements(after[|before|].kind.lists.blackListed) == black
    && Elements(after[|before|].kind.lists.whiteListed) == white
  }

  /** `Array.from` on a set: every element exactly once (in an order this model does
      not fix). */
  method ToArray(s: set<string>) returns (xs: seq<string>)
    ensures Elements(xs) == s && Distinct(xs)
  {
    xs := [];
    var rest := s;
    while rest != {}
      invariant Elements(xs) + rest == s
      invariant Elements(xs) !! rest
      invariant Distinct(xs)
      decreases |rest|
    {
      var x :| x in rest;
      xs := xs + [x];
      rest := rest - {x};
    }
  }

  // ---------------------------------------------------------------------------
  // The guard

  class Guard {
    var whiteListed: set<string>
    var blackListed: set<string>
    var onCooldown: set<string>
    var inCheck: map<string, int>
    var recentCommandActivators: set<string>
    /** The continuations scheduled with `cb.setTimeout` that have not run yet. */
    ghost var timers: multiset<Timer>
    /** Every notice sent so far, in order. */
    ghost var notices: seq<Notice>

    const settings: Settings
    const roomSlug: string
    const access: Evaluator
    /** `JSON.parse`, as far as `importFromJson` looks at its result. */
    const parseJson: string -> Payload

    function State(): Lists
      reads this
    {
      Lists(whiteListed, blackListed, onCooldown, inCheck, recentCommandActivators)
    }

    /** Every armed check and every cooldown has the timer that ends it pending, and
        every expected sum, armed or still scheduled, is one `generateCaptcha` can
        produce. The collections need not be disjoint. */
    ghost predicate Valid()
      reads this
    {
      (forall u :: u in inCheck ==> Expire(u) in timers)
      && (forall u :: u in onCooldown ==> CooldownEnd(u) in timers)
      && (forall u :: u in inCheck ==> 2 <= inCheck[u] <= 18)
      && (forall t :: t in timers && (t.Deliver? || t.Prompt?) ==> 2 <= t.captcha.answer <= 18)
    }

    /** The constructor: empty collections, then the stored list import, if any,
        reported to the room owner. */
    constructor (settings: Settings, roomSlug: string, dev: string, helpers: seq<string>,
                 parseJson: string -> Payload)
      requires parseJson("") == Unparsable
      ensures Valid()
      ensures this.settings == settings && this.roomSlug == roomSlug && this.parseJson == parseJson
      ensures access == Evaluator(settings.allowModSuperuserCmd, dev, helpers)
      ensures timers == multiset{}
      ensures settings.importList == "" ==> State() == NoLists && notices == []
      ensures settings.importList != "" ==>
        var r := ImportInto(NoLists, parseJson(settings.importList));
        State() == r.lists && notices == [Notice(if r.ok then ImportedFromSettings else ImportFailed, roomSlug)]
    {
      this.settings := settings;
      this.roomSlug := roomSlug;
      this.access := Evaluator(settings.allowModSuperuserCmd, dev, helpers);
      this.parseJson := parseJson;
      whiteListed, blackListed, onCooldown, inCheck, recentCommandActivators := {}, {}, {}, map[], {};
      timers, notices := multiset{}, [];
      new;
      if settings.importList != "" {
        var ok := ImportFromJson(parseJson(settings.importList));
        notices := notices + [Notice(if ok then ImportedFromSettings else ImportFailed, roomSlug)];
      }
    }

    /** `getWhitelistedClaims`: one push per `captcha_*` toggle that is off. */
    method GetWhitelistedClaims() returns (claims: seq<Claim>)
      ensures claims == WhitelistedClaims(settings)
    {
      claims := [];
      claims := claims + (if !settings.captchaLightblue then [IsLightBlue] else []);
      claims := claims + (if !settings.captchaDarkblue then [IsDarkBlue] else []);
      claims := claims + (if !settings.captchaLightpurple then [IsLightPurple] else []);
      claims := claims + (if !settings.captchaDarkpurple then [IsDarkPurple] else []);
      assert claims == ExemptTierClaims(settings);
      ghost var tiers := claims;
      claims := claims + (if !settings.captchaFanclub then [InFanclub] else []);
      claims := claims + (if !settings.captchaMods then [IsMod] else []);
      claims := claims + (if !settings.captchaBroadcaster then [IsBroadcaster] else []);
      RolePushes(settings, tiers, claims);
    }

    /** The exemption test of `checkAndAddToLists`: the origin's claims meet the
        claims the settings exempt from the challenge. */
    method IsExempt(source: Origin) returns (exempt: bool)
      ensures exempt <==> Exempt(settings, access, source, roomSlug)
    {
      var userClaims := GetClaims(access, source, roomSlug);
      var exempting := GetWhitelistedClaims();
      SharesClaimIsExempt(settings, access, source, roomSlug);
      exempt := SharesClaim(userClaims, exempting);
    }

    /** `checkAndAddToLists`: a listed user is left alone; an unlisted user with an
        exempting claim is white-listed; anybody else is told a question is coming
        and its delivery is scheduled. Only the last case returns true. */
    method CheckAndAddToLists(source: Origin, r1: real, r2: real) returns (added: bool)
      requires Valid()
      requires 0.0 <= r1 < 1.0 && 0.0 <= r2 < 1.0
      modifies this
      ensures Valid()
      ensures InAnyList(old(State()), source.user) ==>
        !added && State() == old(State()) && timers == old(timers) && notices == old(notices)
      ensures !InAnyList(old(State()), source.user) && Exempt(settings, access, source, roomSlug) ==>
        !added && State() == old(State()).(whiteListed := old(whiteListed) + {source.user})
        && timers == old(timers) && notices == old(notices)
      ensures !InAnyList(old(State()), source.user) && !Exempt(settings, access, source, roomSlug) ==>
        added && State() == old(State())
        && timers == old(timers) + multiset{Deliver(source.user, MathCaptcha.GenerateCaptcha(r1, r2))}
        && notices == old(notices) + [Notice(SolvePrompt, source.user)]
    {
      if InAnyList(State(), source.user) {
        return false;
      }
      var exempt := IsExempt(source);
      if exempt {
        whiteListed := whiteListed + {source.user};
        return false;
      }
      var captcha := MathCaptcha.GenerateCaptcha(r1, r2);
      notices := notices + [Notice(SolvePrompt, source.user)];
      timers := timers + multiset{Deliver(source.user, captcha)};
      return true;
    }

    /** `checkAnswer`: for a user with an armed check the message is marked as spam
        and the check is dropped whatever the answer; a correct answer white-lists
        the user, a wrong one starts a cooldown unless the user is still in some
        collection. Other users' messages pass untouched. */
    method CheckAnswer(msg: Message) returns (out: Message)
      requires Valid()
      modifies this
      ensures Valid()
      ensures msg.origin.user !in old(inCheck) ==>
        out == msg && State() == old(State()) && timers == old(timers) && notices == old(notices)
      ensures var u := msg.origin.user;
        u in old(inCheck) ==>
          out == msg.(xSpam := true) && inCheck == old(inCheck) - {u}
          && blackListed == old(blackListed) && recentCommandActivators == old(recentCommandActivators)
      ensures var u := msg.origin.user;
        u in old(inCheck) && MathCaptcha.Check(old(inCheck)[u], msg.text) ==>
          whiteListed == old(whiteListed) + {u} && onCooldown == old(onCooldown)
          && timers == old(timers) && notices == old(notices) + [Notice(CaptchaCorrect, u)]
      ensures var u := msg.origin.user;
        u in old(inCheck) && !MathCaptcha.Check(old(inCheck)[u], msg.text)
        && (u in old(onCooldown) || u in old(whiteListed) || u in old(blackListed)) ==>
          whiteListed == old(whiteListed) && onCooldown == old(onCooldown)
          && timers == old(timers) && notices == old(notices)
      ensures var u := msg.origin.user;
        u in old(inCheck) && !MathCaptcha.Check(old(inCheck)[u], msg.text)
        && !(u in old(onCooldown) || u in old(whiteListed) || u in old(blackListed)) ==>
          whiteListed == old(whiteListed) && onCooldown == old(onCooldown) + {u}
          && timers == old(timers) + multiset{CooldownEnd(u)} && notices == old(notices) + [Notice(WrongAnswer, u)]
    {
      var u := msg.origin.user;
      if u !in inCheck {
        return msg;
      }
      out := msg.(xSpam := true);
      var expected := inCheck[u];
      inCheck := inCheck - {u};
      if MathCaptcha.Check(expected, msg.text) {
        AcceptAnswer(u);
      } else {
        PenalizeWrongAnswer(u);
      }
    }

    /** The correct-answer branch of `checkAnswer`: the user is congratulated and
        white-listed. */
    method AcceptAnswer(u: string)
      requires Valid()
      modifies this`whiteListed, this`notices
      ensures Valid()
      ensures whiteListed == old(whiteListed) + {u} && notices == old(notices) + [Notice(CaptchaCorrect, u)]
    {
      notices := notices + [Notice(CaptchaCorrect, u)];
      whiteListed := whiteListed + {u};
    }

    /** The wrong-answer branch of `checkAnswer`: a user in no collection is told so
        and put on cooldown, with the timer that ends it; anybody else is left as is. */
    method PenalizeWrongAnswer(u: string)
      requires Valid()
      modifies this`onCooldown, this`timers, this`notices
      ensures Valid()
      ensures InAnyList(old(State()), u) ==>
        onCooldown == old(onCooldown) && timers == old(timers) && notices == old(notices)
      ensures !InAnyList(old(State()), u) ==>
        onCooldown == old(onCooldown) + {u} && timers == old(timers) + multiset{CooldownEnd(u)}
        && notices == old(notices) + [Notice(WrongAnswer, u)]
    {
      if !InAnyList(State(), u) {
        notices := notices + [Notice(WrongAnswer, u)];
        onCooldown := onCooldown + {u};
        timers := timers + multiset{CooldownEnd(u)};
      }
    }

    /** The delivery timer: the question is shown and the check armed, whatever
        happened to the user since it was scheduled; its expiry is scheduled. */
    method RunDeliver(user: string, captcha: MathCaptcha.Captcha)
      requires Valid() && Deliver(user, captcha) in timers
      modifies this
      ensures Valid()
      ensures inCheck == old(inCheck)[user := captcha.answer]
      ensures whiteListed == old(whiteListed) && blackListed == old(blackListed)
      ensures onCooldown == old(onCooldown) && recentCommandActivators == old(recentCommandActivators)
      ensures timers == old(timers) - multiset{Deliver(user, captcha)} + multiset{Expire(user)}
      ensures notices == old(notices) + [Notice(QuestionText(captcha.question), user)]
    {
      notices := notices + [Notice(QuestionText(captcha.question), user)];
      inCheck := inCheck[user := captcha.answer];
      timers := timers - multiset{Deliver(user, captcha)} + multiset{Expire(user)};
    }

    /** The expiry timer drops the user's check, even one armed again since. */
    method RunExpire(user: string)
      requires Valid() && Expire(user) in timers
      modifies this
      ensures Valid()
      ensures State() == old(State()).(inCheck := old(inCheck) - {user})
      ensures timers == old(timers) - multiset{Expire(user)} && notices == old(notices)
    {
      inCheck := inCheck - {user};
      timers := timers - multiset{Expire(user)};
    }

    /** The cooldown timer ends the cooldown, draws a new challenge and schedules its
        announcement, without looking at the lists. */
    method RunCooldownEnd(user: string, r1: real, r2: real)
      requires Valid() && CooldownEnd(user) in timers
      requires 0.0 <= r1 < 1.0 && 0.0 <= r2 < 1.0
      modifies this
      ensures Valid()
      ensures State() == old(State()).(onCooldown := old(onCooldown) - {user})
      ensures timers == old(timers) - multiset{CooldownEnd(user)}
                        + multiset{Prompt(user, MathCaptcha.GenerateCaptcha(r1, r2))}
      ensures notices == old(notices) + [Notice(CooldownOver, user)]
    {
      onCooldown := onCooldown - {user};
      var captcha := MathCaptcha.GenerateCaptcha(r1, r2);
      notices := notices + [Notice(CooldownOver, user)];
      timers := timers - multiset{CooldownEnd(user)} + multiset{Prompt(user, captcha)};
    }

    /** The announcement timer tells the user a question follows and schedules its
        delivery. */
    method RunPrompt(user: string, captcha: MathCaptcha.Captcha)
      requires Valid() && Prompt(user, captcha) in timers
      modifies this
      ensures Valid()
      ensures State() == old(State())
      ensures timers == old(timers) - multiset{Prompt(user, captcha)} + multiset{Deliver(user, captcha)}
      ensures notices == old(notices) + [Notice(SolvePrompt, user)]
    {
      notices := notices + [Notice(SolvePrompt, user)];
      timers := timers - multiset{Prompt(user, captcha)} + multiset{Deliver(user, captcha)};
    }

    /** The notice for a suppressed message, by priority: armed check, black list,
        cooldown, none of these. */
    function ReportKind(user: string): (k: NoticeKind)
      reads this
      ensures k == NotSentInCheck <==> user in inCheck
      ensures k == NotSentBlacklisted <==> user !in inCheck && user in blackListed
      ensures k == NotSentOnCooldown <==> user !in inCheck && user !in blackListed && user in onCooldown
      ensures k == NotSentUnlisted <==> user !in inCheck && user !in blackListed && user !in onCooldown
    {
      if user in inCheck then NotSentInCheck
      else if user in blackListed then NotSentBlacklisted
      else if user in onCooldown then NotSentOnCooldown
      else NotSentUnlisted
    }

    /** `filterMessage`: a white-listed user who is not black-listed, or a message
        already marked, passes unchanged; anything else is marked as spam and, when
        `report` holds, its sender gets exactly one notice. No collection changes. */
    method FilterMessage(msg: Message, report: bool) returns (out: Message)
      modifies this`notices
      ensures var u := msg.origin.user;
        var passes := (u in whiteListed && u !in blackListed) || msg.xSpam;
        out == (if passes then msg else msg.(xSpam := true))
        && notices == old(notices) + (if passes || !report then [] else [Notice(ReportKind(u), u)])
    {
      var u := msg.origin.user;
      if u in whiteListed && u !in blackListed {
        return msg;
      }
      if msg.xSpam {
        return msg;
      }
      out := msg.(xSpam := true);
      if report {
        notices := notices + [Notice(ReportKind(u), u)];
      }
    }

    /** `whitelistOnTip`: with `whitelist_tip` on, the tipper joins the white list,
        whatever the amount and whatever other collection holds them. */
    method WhitelistOnTip(tip: Tip)
      requires Valid()
      modifies this
      ensures Valid()
      ensures whiteListed == if settings.whitelistTip then old(whiteListed) + {tip.fromUser} else old(whiteListed)
      ensures blackListed == old(blackListed) && onCooldown == old(onCooldown) && inCheck == old(inCheck)
      ensures recentCommandActivators == old(recentCommandActivators)
      ensures timers == old(timers) && notices == old(notices)
    {
      if settings.whitelistTip && tip.fromUser !in whiteListed {
        whiteListed := whiteListed + {tip.fromUser};
      }
    }

    /** `importFromJson` on what `JSON.parse` returned. */
    method ImportFromJson(p: Payload) returns (ok: bool)
      requires Valid()
      modifies this
      ensures Valid()
      ensures var r := ImportInto(old(State()), p); State() == r.lists && ok == r.ok
      ensures timers == old(timers) && notices == old(notices)
    {
      match p
      case Unparsable =>
        ok := false;
      case Parsed(b, w) =>
        if b.NotIterable? {
          return false;
        }
        blackListed := FieldSet(b);
        if w.NotIterable? {
          return false;
        }
        whiteListed := FieldSet(w);
        ok := true;
    }

    /** `exportToJson`: exactly the black and white lists. */
    method ExportToJson() returns (snap: Snapshot)
      ensures Elements(snap.blackListed) == blackListed && Distinct(snap.blackListed)
      ensures Elements(snap.whiteListed) == whiteListed && Distinct(snap.whiteListed)
    {
      var black := ToArray(blackListed);
      var white := ToArray(whiteListed);
      snap := Snapshot(black, white);
    }

    /** `deleteFromAllLists`. */
    method DeleteFromAllLists(user: string)
      requires Valid()
      modifies this
      ensures Valid()
      ensures State() == Evict(old(State()), user)
      ensures timers == old(timers) && notices == old(notices)
    {
      inCheck := inCheck - {user};
      onCooldown := onCooldown - {user};
      whiteListed := whiteListed - {user};
      blackListed := blackListed - {user};
    }

    /** The command a prefixed message stands for, for this sender. */
    function CommandOf(msg: Message): (cmd: Command)
      requires StartsWith(msg.text, Prefix)
      ensures cmd.Debug? ==> HasPermission(access, msg.origin, roomSlug, Mod)
      ensures !cmd.NoCommand? && !cmd.Debug? ==> HasPermission(access, msg.origin, roomSlug, Superuser)
    {
      var args := Split(Trim(msg.text[|Prefix|..]));
      ParseCommand(args, HasPermission(access, msg.origin, roomSlug, Mod),
                   HasPermission(access, msg.origin, roomSlug, Superuser),
                   settings.importList, parseJson)
    }

    /** `handleCommands`: text without the prefix is not a command; a prefixed message
        is marked as spam and its command applied. */
    method HandleCommands(msg: Message) returns (out: Message)
      requires Valid()
      modifies this
      ensures Valid() && timers == old(timers)
      ensures !StartsWith(msg.text, Prefix) ==>
        out == msg && State() == old(State()) && notices == old(notices)
      ensures StartsWith(msg.text, Prefix) ==>
        out == msg.(xSpam := true) && State() == Effect(old(State()), CommandOf(msg))
      ensures StartsWith(msg.text, Prefix) && !CommandOf(msg).Export? ==>
        notices == old(notices) + Replies(old(State()), CommandOf(msg), msg.origin.user)
      ensures StartsWith(msg.text, Prefix) && CommandOf(msg).Export? ==>
        ExportReply(old(notices), notices, msg.origin.user, blackListed, whiteListed)
    {
      if !StartsWith(msg.text, Prefix) {
        return msg;
      }
      out := msg.(xSpam := true);
      RunCommand(CommandOf(msg), msg.origin.user);
    }

    /** The arms of the command dispatch, replying to `user`. */
    method RunCommand(cmd: Command, user: string)
      requires Valid()
      modifies this
      ensures Valid() && timers == old(timers)
      ensures State() == Effect(old(State()), cmd)
      ensures !cmd.Export? ==> notices == old(notices) + Replies(old(State()), cmd, user)
      ensures cmd.Export? ==> ExportReply(old(notices), notices, user, blackListed, whiteListed)
    {
      match cmd
      case Export =>
        RunExport(user);
      case ListAdd(list, target) =>
        RunAdd(list, target, user);
      case ListRemove(list, target) =>
        RunRemove(list, target, user);
      case _ =>
        RunOther(cmd, user);
    }

    /** The EXPORT arm: the reply carries both lists, each element once. */
    method RunExport(user: string)
      requires Valid()
      modifies this`notices
      ensures Valid()
      ensures ExportReply(old(notices), notices, user, blackListed, whiteListed)
    {
      var snap := ExportToJson();
      notices := notices + [Notice(Exported(snap), user)];
    }

    /** The remaining arms: DEBUG, RELOAD, IMPORT, CLEAR, the list usage texts and
        messages that name no command. */
    method RunOther(cmd: Command, user: string)
      requires Valid() && !cmd.Export? && !cmd.ListAdd? && !cmd.ListRemove?
      modifies this
      ensures Valid() && timers == old(timers)
      ensures State() == Effect(old(State()), cmd)
      ensures notices == old(notices) + Replies(old(State()), cmd, user)
    {
      match cmd
      case NoCommand =>
      case Debug =>
        notices := notices + [Notice(DebugDump, user)];
      case Reload(None) =>
        notices := notices + [Notice(NothingToReload, user)];
      case Reload(Some(p)) =>
        var ok := ImportFromJson(p);
        notices := notices + [Notice(if ok then ImportedFromSettings else ImportFailed, user)];
      case Import(p) =>
        var ok := ImportFromJson(p);
        notices := notices + [Notice(if ok then ImportedGiven else ImportFailed, user)];
      case Clear =>
        whiteListed, blackListed, inCheck, onCooldown := {}, {}, map[], {};
        recentCommandActivators := {};
        notices := notices + [Notice(Cleared, user)];
      case ListUsage(list) =>
        notices := notices + [Notice(Usage(list), user)];
    }

    /** The `-add` arm of the black-list and white-list commands: the target is
        evicted from every collection, then inserted into the named list. */
    method RunAdd(list: ListName, target: Option<string>, user: string)
      requires Valid()
      modifies this
      ensures Valid() && timers == old(timers)
      ensures State() == Effect(old(State()), ListAdd(list, target))
      ensures notices == old(notices) + [Notice(Added(list, target), user)]
    {
      if target.Some? {
        DeleteFromAllLists(target.value);
        if list == Black {
          blackListed := blackListed + {target.value};
        } else {
          whiteListed := whiteListed + {target.value};
        }
      }
      notices := notices + [Notice(Added(list, target), user)];
    }

    /** The `-remove` arm: the target leaves the named list only. */
    method RunRemove(list: ListName, target: Option<string>, user: string)
      requires Valid()
      modifies this
      ensures Valid() && timers == old(timers)
      ensures State() == Effect(old(State()), ListRemove(list, target))
      ensures notices == old(notices) + [Notice(Removed(list, target), user)]
    {
      if target.Some? {
        if list == Black {
          blackListed := blackListed - {target.value};
        } else {
          whiteListed := whiteListed - {target.value};
        }
      }
      notices := notices + [Notice(Removed(list, target), user)];
    }
  }
}
