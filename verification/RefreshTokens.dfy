/**
 * Single-use refresh-token rotation: a token is consumed by one atomic GETDEL, then a new one is
 * stored for the same subject. Token identifiers are assumed fresh.
 */
module RefreshTokens {
  import opened Common

  type Token = nat
  type LoginId = nat

  datatype Role = AnonymousReporter | Reporter | Analyst | Responder | Admin

  /** What a login establishes about its subject. */
  datatype Account = Account(sub: string, role: Role, tier: int, region: Option<string>)

  // ------------------------------------------------------------------
  // The JSON payload
  // ------------------------------------------------------------------

  datatype Json = Text(text: string) | Number(number: int)

  type Payload = map<string, Json>

  function RoleValue(role: Role): string {
    match role
    case AnonymousReporter => "anonymous_reporter"
    case Reporter => "reporter"
    case Analyst => "analyst"
    case Responder => "responder"
    case Admin => "admin"
  }

  function ParseRole(value: string): Option<Role> {
    if value == "anonymous_reporter" then Some(AnonymousReporter)
    else if value == "reporter" then Some(Reporter)
    else if value == "analyst" then Some(Analyst)
    else if value == "responder" then Some(Responder)
    else if value == "admin" then Some(Admin)
    else None
  }

  /** The subject's entries of an access token and of the stored payload alike: a region that is
      missing or empty is left out. */
  function Claims(a: Account): Payload {
    var base := map["sub" := Text(a.sub), "role" := Text(RoleValue(a.role)), "tier" := Number(a.tier)];
    if a.region.Some? && a.region.value != "" then base["region_geojson" := Text(a.region.value)] else base
  }

  /** What a rotation reads back; None stands for the KeyError or ValueError of a malformed payload. */
  function ReadBack(p: Payload): Option<Account> {
    if "sub" !in p || "role" !in p || !p["sub"].Text? || !p["role"].Text? then None
    else if "tier" in p && !p["tier"].Number? then None
    else if "region_geojson" in p && !p["region_geojson"].Text? then None
    else
      var role := ParseRole(p["role"].text);
      if role.None? then None
      else Some(Account(p["sub"].text, role.value,
                        if "tier" in p then p["tier"].number else 0,
                        if "region_geojson" in p then Some(p["region_geojson"].text) else None))
  }

  /** Main result: writing a payload and reading it back returns the account, except that an empty
      region comes back as none. */
  lemma PayloadRoundTrip(a: Account)
    ensures ReadBack(Claims(a)) == Some(if a.region == Some("") then a.(region := None) else a)
    ensures ReadBack(Claims(a)) == Some(a) <==> a.region != Some("")
  {
  }

  /** What every token says of its subject, entry by entry. */
  lemma ClaimsMeaning(a: Account)
    ensures Claims(a).Keys >= {"sub", "role", "tier"}
    ensures Claims(a)["sub"] == Text(a.sub) && Claims(a)["tier"] == Number(a.tier)
    ensures Claims(a)["role"] == Text("anonymous_reporter") <==> a.role.AnonymousReporter?
    ensures Claims(a)["role"] == Text("reporter") <==> a.role.Reporter?
    ensures Claims(a)["role"] == Text("analyst") <==> a.role.Analyst?
    ensures Claims(a)["role"] == Text("responder") <==> a.role.Responder?
    ensures Claims(a)["role"] == Text("admin") <==> a.role.Admin?
    ensures "region_geojson" in Claims(a) <==> a.region.Some? && a.region.value != ""
    ensures "region_geojson" in Claims(a) ==> Claims(a)["region_geojson"] == Text(a.region.value)
  {
  }

  /** A payload stored without a tier reads back with tier 0; one without subject or role, or with a role
      that does not exist, does not read back. */
  lemma IncompletePayload(a: Account, unknown: string)
    ensures ReadBack(Claims(a) - {"tier"}) == ReadBack(Claims(a.(tier := 0)))
    ensures ReadBack(Claims(a) - {"sub"}).None? && ReadBack(Claims(a) - {"role"}).None?
    ensures (forall role: Role :: RoleValue(role) != unknown) ==> ReadBack(Claims(a)["role" := Text(unknown)]).None?
  {
    assert RoleValue(AnonymousReporter) == "anonymous_reporter" && RoleValue(Reporter) == "reporter";
    assert RoleValue(Analyst) == "analyst" && RoleValue(Responder) == "responder" && RoleValue(Admin) == "admin";
  }

  lemma ClaimsSurviveReadBack(a: Account)
    ensures ReadBack(Claims(a)).Some? && Claims(ReadBack(Claims(a)).value) == Claims(a)
  {
  }

  // ------------------------------------------------------------------
  // Tokens, logins and rotations
  // ------------------------------------------------------------------

  /** An access token built from a rotation, with the login it descends from. */
  datatype Grant = Grant(login: LoginId, claims: Payload)

  /** `live` is the key space; `rotating` holds the payload of every consumed token whose rotation has
      not stored its successor yet. The other fields are the history. */
  datatype Server = Server(live: map<Token, Payload>, rotating: map<Token, Payload>,
                           origin: map<Token, LoginId>, logins: map<LoginId, Account>,
                           consumed: seq<Token>, grants: seq<Grant>)

  /** `Issue` completes the rotation that consumed `spent`; `Crash` abandons it. */
  datatype Step =
    | Login(login: LoginId, account: Account, token: Token)
    | GetDel(token: Token)
    | Issue(spent: Token, token: Token)
    | Expire(token: Token)
    | Crash(spent: Token)

  predicate Enabled(s: Server, step: Step) {
    match step
    case Login(login, _, token) => login !in s.logins && token !in s.origin
    case GetDel(_) => true
    case Issue(spent, token) =>
      spent in s.rotating && spent in s.origin && token !in s.origin && ReadBack(s.rotating[spent]).Some?
    case Expire(token) => token in s.live
    case Crash(spent) => spent in s.rotating
  }

  function After(s: Server, step: Step): Server
    requires Enabled(s, step)
  {
    match step
    case Login(login, account, token) =>
      s.(live := s.live[token := Claims(account)], origin := s.origin[token := login],
         logins := s.logins[login := account])
    case GetDel(token) =>
      if token !in s.live then s
      else s.(live := s.live - {token}, rotating := s.rotating[token := s.live[token]],
              consumed := s.consumed + [token])
    case Issue(spent, token) =>
      var account := ReadBack(s.rotating[spent]).value;
      s.(live := s.live[token := Claims(account)], rotating := s.rotating - {spent},
         origin := s.origin[token := s.origin[spent]],
         grants := s.grants + [Grant(s.origin[spent], Claims(account))])
    case Expire(token) => s.(live := s.live - {token})
    case Crash(spent) => s.(rotating := s.rotating - {spent})
  }

  ghost predicate Reaches(s: Server, steps: seq<Step>, t: Server)
    decreases |steps|
  {
    if steps == [] then s == t else Enabled(s, steps[0]) && Reaches(After(s, steps[0]), steps[1..], t)
  }

  const EMPTY := Server(map[], map[], map[], map[], [], [])

  /** A token that can still lead to another one. */
  predicate Holds(s: Server, token: Token) {
    token in s.live || token in s.rotating
  }

  predicate Descends(s: Server, token: Token, login: LoginId) {
    token in s.origin && s.origin[token] == login
  }

  // ------------------------------------------------------------------
  // The invariant
  // ------------------------------------------------------------------

  ghost predicate NoRepeats(consumed: seq<Token>) {
    forall i, j :: 0 <= i < j < |consumed| ==> consumed[i] != consumed[j]
  }

  /** Every token is accounted for, and a consumed one is never live again. */
  ghost predicate Accounted(s: Server) {
    && (forall t :: Holds(s, t) ==> t in s.origin)
    && (forall t :: t in s.origin ==> s.origin[t] in s.logins)
    && (forall t :: t in s.consumed ==> t in s.origin && t !in s.live)
    && (forall t :: t in s.rotating ==> t in s.consumed)
    && NoRepeats(s.consumed)
  }

  ghost predicate OneEach(s: Server) {
    forall t, u :: Holds(s, t) && Holds(s, u) && t in s.origin && u in s.origin && s.origin[t] == s.origin[u] ==> t == u
  }

  ghost predicate SameClaims(s: Server, token: Token, p: Payload) {
    token in s.origin && s.origin[token] in s.logins && p == Claims(s.logins[s.origin[token]])
  }

  ghost predicate KeysFaithful(s: Server, keys: map<Token, Payload>) {
    forall t :: t in keys ==> SameClaims(s, t, keys[t])
  }

  ghost predicate GrantsFaithful(s: Server) {
    forall i :: 0 <= i < |s.grants| ==>
      s.grants[i].login in s.logins && s.grants[i].claims == Claims(s.logins[s.grants[i].login])
  }

  ghost predicate Faithful(s: Server) {
    KeysFaithful(s, s.live) && KeysFaithful(s, s.rotating) && GrantsFaithful(s)
  }

  ghost predicate Invariant(s: Server) {
    Accounted(s) && OneEach(s) && Faithful(s)
  }

  lemma StepKeepsAccounted(s: Server, step: Step)
    requires Accounted(s) && Enabled(s, step)
    ensures Accounted(After(s, step))
  {
  }

  lemma StepKeepsOneEach(s: Server, step: Step)
    requires Accounted(s) && OneEach(s) && Enabled(s, step)
    ensures OneEach(After(s, step))
  {
  }

  lemma StepKeepsGrants(s: Server, step: Step)
    requires Accounted(s) && Faithful(s) && Enabled(s, step)
    ensures GrantsFaithful(After(s, step))
  {
    if step.Issue? {
      ClaimsSurviveReadBack(s.logins[s.origin[step.spent]]);
    }
  }

  lemma StepKeepsLive(s: Server, step: Step)
    requires Accounted(s) && Faithful(s) && Enabled(s, step)
    ensures KeysFaithful(After(s, step), After(s, step).live)
  {
    if step.Issue? {
      ClaimsSurviveReadBack(s.logins[s.origin[step.spent]]);
    }
  }

  lemma StepKeepsFaithful(s: Server, step: Step)
    requires Accounted(s) && Faithful(s) && Enabled(s, step)
    ensures Faithful(After(s, step))
  {
    StepKeepsLive(s, step);
    StepKeepsGrants(s, step);
  }

  lemma {:induction false} RunKeepsInvariant(s: Server, steps: seq<Step>, t: Server)
    requires Invariant(s) && Reaches(s, steps, t)
    ensures Invariant(t)
    decreases |steps|
  {
    if steps != [] {
      StepKeepsAccounted(s, steps[0]);
      StepKeepsOneEach(s, steps[0]);
      StepKeepsFaithful(s, steps[0]);
      RunKeepsInvariant(After(s, steps[0]), steps[1..], t);
    }
  }

  /** Main result: under any interleaving no token is consumed twice, and presenting a consumed token
      again changes nothing. */
  lemma ConsumedAtMostOnce(steps: seq<Step>, t: Server, token: Token)
    requires Reaches(EMPTY, steps, t)
    ensures NoRepeats(t.consumed)
    ensures token in t.consumed ==> After(t, GetDel(token)) == t
  {
    RunKeepsInvariant(EMPTY, steps, t);
  }

  function Descendants(s: Server, login: LoginId): set<Token> {
    set t | t in s.live.Keys + s.rotating.Keys && Descends(s, t, login)
  }

  lemma AtMostOneOf(tokens: set<Token>)
    requires forall t, u :: t in tokens && u in tokens ==> t == u
    ensures |tokens| <= 1
  {
    if t :| t in tokens {
      assert tokens == {t};
    }
  }

  /** Main result: the live tokens and unfinished rotations that descend from one login never exceed
      one. */
  lemma OneDescendantPerLogin(steps: seq<Step>, t: Server, login: LoginId)
    requires Reaches(EMPTY, steps, t)
    ensures |Descendants(t, login)| <= 1
  {
    RunKeepsInvariant(EMPTY, steps, t);
    forall u, v | u in Descendants(t, login) && v in Descendants(t, login)
      ensures u == v
    {
      assert Holds(t, u) && Holds(t, v);
    }
    AtMostOneOf(Descendants(t, login));
  }

  /** Main result: subject, role, tier and region of every access token built by a rotation, and of
      every token still stored, are those of the access token built at login. */
  lemma RotationKeepsClaims(steps: seq<Step>, t: Server)
    requires Reaches(EMPTY, steps, t)
    ensures forall i :: 0 <= i < |t.grants| ==>
              t.grants[i].login in t.logins && t.grants[i].claims == Claims(t.logins[t.grants[i].login])
    ensures forall token :: token in t.live ==> SameClaims(t, token, t.live[token])
  {
    RunKeepsInvariant(EMPTY, steps, t);
  }

  // ------------------------------------------------------------------
  // Runs without expiry or crash
  // ------------------------------------------------------------------

  ghost predicate Lossless(steps: seq<Step>) {
    forall i :: 0 <= i < |steps| ==> !steps[i].Expire? && !steps[i].Crash?
  }

  ghost predicate HasDescendant(s: Server, login: LoginId) {
    exists t :: t in s.origin && Holds(s, t) && Descends(s, t, login)
  }

  lemma StepKeepsDescendant(s: Server, step: Step, login: LoginId)
    requires Accounted(s) && Enabled(s, step) && !step.Expire? && !step.Crash?
    requires HasDescendant(s, login) || (step.Login? && step.login == login)
    ensures HasDescendant(After(s, step), login)
  {
    if step.Login? && step.login == login {
      assert Descends(After(s, step), step.token, login) && Holds(After(s, step), step.token);
    } else {
      var t :| t in s.origin && Holds(s, t) && Descends(s, t, login);
      var heir := if step.Issue? && step.spent == t && t !in s.live then step.token else t;
      assert Descends(After(s, step), heir, login) && Holds(After(s, step), heir);
    }
  }

  lemma {:induction false} RunKeepsDescendant(s: Server, steps: seq<Step>, t: Server, login: LoginId)
    requires Accounted(s) && Reaches(s, steps, t) && Lossless(steps)
    requires login in s.logins ==> HasDescendant(s, login)
    ensures login in t.logins ==> HasDescendant(t, login)
    decreases |steps|
  {
    if steps != [] {
      var s' := After(s, steps[0]);
      StepKeepsAccounted(s, steps[0]);
      if login in s'.logins {
        StepKeepsDescendant(s, steps[0], login);
      }
      RunKeepsDescendant(s', steps[1..], t, login);
    }
  }

  /** Main result: while nothing expires and no rotation is cut off, a login is never lost: exactly one
      token or unfinished rotation descends from it. */
  lemma LoginIsNeverLost(steps: seq<Step>, t: Server, login: LoginId)
    requires Reaches(EMPTY, steps, t) && Lossless(steps) && login in t.logins
    ensures |Descendants(t, login)| == 1
  {
    OneDescendantPerLogin(steps, t, login);
    RunKeepsDescendant(EMPTY, steps, t, login);
    var token :| token in t.origin && Holds(t, token) && Descends(t, token, login);
    assert token in Descendants(t, login);
  }

  // ------------------------------------------------------------------
  // The service as it is called
  // ------------------------------------------------------------------

  datatype TokenError = InvalidToken

  class TokenStore {
    var live: map<Token, Payload>
    ghost var history: Server

    constructor ()
      ensures history == EMPTY && InStep()
    {
      live := map[];
      history := EMPTY;
    }

    /** The keys on the server are those of the history. */
    ghost predicate InStep()
      reads this
    {
      live == history.live && Invariant(history)
    }

    /** GETDEL: read and delete in one command. */
    method GetDelete(token: Token) returns (raw: Option<Payload>)
      requires InStep()
      modifies this
      ensures InStep() && history == After(old(history), GetDel(token))
      ensures raw == if token in old(live) then Some(old(live)[token]) else None
    {
      StepKeepsAccounted(history, GetDel(token));
      StepKeepsOneEach(history, GetDel(token));
      StepKeepsFaithful(history, GetDel(token));
      history := After(history, GetDel(token));
      raw := if token in live then Some(live[token]) else None;
      live := live - {token};
    }

    /** `_issue_refresh_token`, inside the rotation of `spent`. */
    method StoreSuccessor(account: Account, ghost spent: Token, token: Token)
      requires InStep() && Enabled(history, Issue(spent, token)) && ReadBack(history.rotating[spent]) == Some(account)
      modifies this
      ensures InStep() && history == After(old(history), Issue(spent, token))
    {
      StepKeepsAccounted(history, Issue(spent, token));
      StepKeepsOneEach(history, Issue(spent, token));
      StepKeepsFaithful(history, Issue(spent, token));
      history := After(history, Issue(spent, token));
      live := live[token := Claims(account)];
    }

    /** `rotate_refresh_token`: succeeds exactly on a live token, which it replaces by `next`; the new
        access token and the new stored payload both carry what the old payload carried. */
    method RotateRefreshToken(token: Token, next: Token) returns (access: Result<Payload, TokenError>)
      requires InStep() && next !in history.origin
      modifies this
      ensures InStep()
      ensures access == if token in old(live) then Ok(old(live)[token]) else Err(InvalidToken)
      ensures live == if token in old(live) then (old(live) - {token})[next := old(live)[token]] else old(live)
    {
      var raw := GetDelete(token);
      if raw.None? {
        return Err(InvalidToken);
      }
      assert SameClaims(history, token, raw.value);
      ClaimsSurviveReadBack(history.logins[history.origin[token]]);
      var account := ReadBack(raw.value).value;
      StoreSuccessor(account, token, next);
      access := Ok(Claims(account));
    }
  }
}
