/** Instance setup (apps/api/src/instance.rs): deployment mode, billing account, secrets, catalog and
    the provider held in memory. Every operation is one step. */
module InstanceSetup {
  import opened Common

  datatype Mode = Unconfigured | Private | Team | PlatformByo | PlatformConnect
  datatype BillingMode = ByoKeys | StripeConnect
  datatype SecretKind = ByoKey | ByoWebhook | ConnectKey | ConnectWebhook

  /** The provider account as last stored. */
  datatype Account = Account(mode: BillingMode, id: string, enabled: bool)

  /** The rows of the singleton tables; `catalog` is the account that owns the stored catalog. */
  datatype Db = Db(
    owner: string, mode: Mode, policy: string, enforcement: bool, complete: bool,
    account: Option<Account>, secrets: map<SecretKind, string>, catalog: Option<string>)

  /** The provider client in use. */
  datatype Live = Live(mode: BillingMode, key: string, account: string)

  datatype Error = Forbidden | InvalidRequest | BillingInUse | ProviderFailed | InvalidConfiguration
    | Conflict | NotFound

  datatype Request =
    | AskPrivate(policy: string)
    | AskTeam(policy: string)
    | AskByo(policy: string, key: string, webhook: string)
    | AskConnect(policy: string, key: string, webhook: string, detailsValid: bool)

  /** What the provider reports about an account. */
  datatype Report = Report(id: string, enabled: bool)

  /** What the outside world answers: the provider's report if the call succeeds, whether a catalog can be
      found or provisioned with matching prices, and whether a client can be built from it. */
  datatype World = World(report: Option<Report>, catalogReady: bool, buildable: bool)

  predicate Platform(mode: Mode) { mode in {PlatformByo, PlatformConnect} }

  function ModeOf(request: Request): Mode {
    match request
    case AskPrivate(_) => Private
    case AskTeam(_) => Team
    case AskByo(_, _, _) => PlatformByo
    case AskConnect(_, _, _, _) => PlatformConnect
  }

  predicate Graphic(s: string) { forall i :: 0 <= i < |s| ==> '!' <= s[i] <= '~' }

  predicate KeyValid(key: string) {
    ("sk_test_" <= key || "sk_live_" <= key) && 16 <= |key| <= 512 && Graphic(key)
  }

  predicate WebhookValid(secret: string) { "whsec_" <= secret && 16 <= |secret| <= 512 && Graphic(secret) }

  function BindingOf(mode: Mode): Option<BillingMode> {
    match mode
    case PlatformByo => Some(ByoKeys)
    case PlatformConnect => Some(StripeConnect)
    case _ => None
  }

  /** ensure_billing_reconfiguration_safe: a billed tenant pins the mode and needs a bound account. */
  predicate Reconfigurable(db: Db, requested: Mode, tenants: bool) {
    tenants ==>
      && db.mode == requested && db.account.Some?
      && BindingOf(db.mode) == Some(db.account.value.mode)
  }

  datatype Outcome = Stored(db: Db) | Unchanged | Refused(error: Error)

  function Cleared(db: Db): Db { db.(account := None, secrets := map[], catalog := None) }

  function Settled(db: Db, request: Request, ready: bool): Db {
    db.(mode := ModeOf(request), policy := request.policy, enforcement := Platform(ModeOf(request)), complete := ready)
  }

  /** The account argument is required even when no tenant is billed. */
  function ConfigureByo(db: Db, request: Request, tenants: bool, world: World): Outcome
    requires request.AskByo?
  {
    if db.account.None? then Refused(BillingInUse)
    else if !KeyValid(request.key) || !WebhookValid(request.webhook) then Refused(InvalidRequest)
    else if world.report.None? then Refused(ProviderFailed)
    else
      var report := world.report.value;
      if tenants && report.id != db.account.value.id then Refused(BillingInUse)
      else if !world.catalogReady then Refused(ProviderFailed)
      else if !world.buildable then Refused(InvalidConfiguration)
      else
        var secrets := db.secrets[ByoKey := request.key][ByoWebhook := request.webhook] - {ConnectKey, ConnectWebhook};
        Stored(Settled(
          db.(account := Some(Account(ByoKeys, report.id, report.enabled)), secrets := secrets,
              catalog := Some(report.id)),
          request, report.enabled))
  }

  /** The account a new connect setup keeps using, if any. */
  function ReusedAccount(db: Db): Option<string> {
    if db.mode == PlatformConnect && db.account.Some? && db.account.value.mode == StripeConnect
    then Some(db.account.value.id) else None
  }

  function ConfigureConnect(db: Db, request: Request, world: World): Outcome
    requires request.AskConnect?
  {
    if !KeyValid(request.key) || !WebhookValid(request.webhook) || !request.detailsValid then Refused(InvalidRequest)
    else if world.report.None? then Refused(ProviderFailed)
    else
      var report := world.report.value;
      Stored(Settled(
        db.(account := Some(Account(StripeConnect, report.id, report.enabled)),
            secrets := map[ConnectKey := request.key, ConnectWebhook := request.webhook], catalog := None),
        request, false))
  }

  function CompleteSetup(db: Db, actor: string, request: Request, tenants: bool, world: World): Outcome {
    if actor != db.owner then Refused(Forbidden)
    else if !Reconfigurable(db, ModeOf(request), tenants) then Refused(BillingInUse)
    else
      match request
      case AskByo(_, _, _) => ConfigureByo(db, request, tenants, world)
      case AskConnect(_, _, _, _) => ConfigureConnect(db, request, world)
      case _ =>
        if db.complete && db.mode == ModeOf(request) && db.policy == request.policy then Unchanged
        else Stored(Settled(Cleared(db), request, true))
  }

  function RefreshAccount(db: Db, world: World): Outcome {
    if db.account.None? then Refused(NotFound)
    else if db.mode == PlatformByo then
      if ByoKey !in db.secrets then Refused(InvalidConfiguration)
      else if world.report.None? then Refused(ProviderFailed)
      else
        var report := world.report.value;
        Stored(db.(account := Some(Account(ByoKeys, report.id, report.enabled)), complete := report.enabled))
    else if db.mode == PlatformConnect then
      if ConnectKey !in db.secrets || ConnectWebhook !in db.secrets then Refused(InvalidConfiguration)
      else if world.report.None? then Refused(ProviderFailed)
      else
        var report := world.report.value;
        if report.enabled && !world.catalogReady then Refused(ProviderFailed)
        else Stored(db.(
          account := Some(Account(StripeConnect, report.id, report.enabled)),
          catalog := if report.enabled then Some(report.id) else db.catalog, complete := report.enabled))
    else Refused(Conflict)
  }

  /** The secret that holds a platform mode's key. */
  function KeyKind(mode: Mode): SecretKind { if mode == PlatformByo then ByoKey else ConnectKey }

  /** reload_billing_provider: the client for the stored state; none when it must be off, an error (and the
      client in use left alone) when material is missing. */
  function Reloaded(db: Db, live: Option<Live>, buildable: bool): (Option<Live>, bool) {
    if !Platform(db.mode) || db.account.None? || !db.account.value.enabled then (None, true)
    else
      var account := db.account.value;
      var kind := KeyKind(db.mode);
      if db.catalog != Some(account.id) || BindingOf(db.mode) != Some(account.mode) || kind !in db.secrets || !buildable
      then (live, false)
      else (Some(Live(account.mode, db.secrets[kind], account.id)), true)
  }

  // ---------------------------------------------------------------- the service

  class Instance {
    var db: Db
    var live: Option<Live>

    /** The provider account behind each key. */
    ghost const accountOf: string -> string

    ghost predicate Valid() reads this { Consistent(db, accountOf) }

    constructor (owner: string, policy: string, enforcement: bool, ghost accountOf: string -> string)
      ensures Valid() && this.accountOf == accountOf
      ensures db == Opening(owner, policy, enforcement) && live == None
    {
      db := Opening(owner, policy, enforcement);
      live := None;
      this.accountOf := accountOf;
    }

    method Reload(buildable: bool) returns (ok: bool)
      modifies this`live
      ensures (live, ok) == Reloaded(db, old(live), buildable)
    {
      if db.mode in {PlatformByo, PlatformConnect} && (db.account.None? || !db.account.value.enabled) {
        live := None;
        return true;
      }
      match db.mode {
        case PlatformByo =>
          var account := db.account.value;
          if db.catalog != Some(account.id) || account.mode != ByoKeys || ByoKey !in db.secrets || !buildable {
            return false;
          }
          live := Some(Live(ByoKeys, db.secrets[ByoKey], account.id));
        case PlatformConnect =>
          var account := db.account.value;
          if db.catalog != Some(account.id) || account.mode != StripeConnect
             || ConnectKey !in db.secrets || !buildable {
            return false;
          }
          live := Some(Live(StripeConnect, db.secrets[ConnectKey], account.id));
        case _ =>
          live := None;
      }
      return true;
    }

    method Byo(request: Request, tenants: bool, world: World) returns (error: Option<Error>)
      requires request.AskByo?
      modifies this`db
      ensures match ConfigureByo(old(db), request, tenants, world)
        case Stored(after) => error == None && Settled(db, request, after.complete) == after
          && db.complete == old(db).complete
        case Unchanged => false
        case Refused(e) => error == Some(e) && db == old(db)
    {
      if db.account.None? {
        return Some(BillingInUse);
      }
      if !KeyValid(request.key) || !WebhookValid(request.webhook) {
        return Some(InvalidRequest);
      }
      if world.report.None? {
        return Some(ProviderFailed);
      }
      var report := world.report.value;
      if tenants && report.id != db.account.value.id {
        return Some(BillingInUse);
      }
      if !world.catalogReady {
        return Some(ProviderFailed);
      }
      if !world.buildable {
        return Some(InvalidConfiguration);
      }
      db := db.(secrets := db.secrets[ByoKey := request.key]);
      db := db.(secrets := db.secrets[ByoWebhook := request.webhook]);
      db := db.(account := Some(Account(ByoKeys, report.id, report.enabled)));
      db := db.(catalog := Some(report.id));
      db := db.(secrets := db.secrets - {ConnectKey, ConnectWebhook});
      return None;
    }

    method Connect(request: Request, world: World) returns (error: Option<Error>)
      requires request.AskConnect?
      modifies this`db
      ensures match ConfigureConnect(old(db), request, world)
        case Stored(after) => error == None && Settled(db, request, false) == after
        case Unchanged => false
        case Refused(e) => error == Some(e) && db == old(db)
    {
      if !KeyValid(request.key) || !WebhookValid(request.webhook) || !request.detailsValid {
        return Some(InvalidRequest);
      }
      if world.report.None? {
        return Some(ProviderFailed);
      }
      db := db.(catalog := None);
      db := db.(secrets := map[]);
      db := db.(secrets := db.secrets[ConnectKey := request.key]);
      db := db.(secrets := db.secrets[ConnectWebhook := request.webhook]);
      db := db.(account := Some(Account(StripeConnect, world.report.value.id, world.report.value.enabled)));
      return None;
    }

    /** `committed` is whether the setup was stored; `ok` whether the caller hears success. */
    method Setup(actor: string, request: Request, tenants: bool, world: World) returns (committed: bool, ok: bool)
      modifies this
      ensures var before := State(old(db), old(live), tenants);
        old(Valid()) && Honest(before, Action.Setup(actor, request, world), accountOf) ==> Valid()
      ensures match CompleteSetup(old(db), actor, request, tenants, world)
        case Stored(after) =>
          committed && db == after && (live, ok) == Reloaded(after, old(live), world.buildable)
        case Unchanged => !committed && ok && db == old(db) && live == old(live)
        case Refused(_) => !committed && !ok && db == old(db) && live == old(live)
    {
      ghost var before := State(db, live, tenants);
      if Valid() && Honest(before, Action.Setup(actor, request, world), accountOf) {
        SetupKeepsConsistent(before, actor, request, world, accountOf);
      }
      if actor != db.owner || !Reconfigurable(db, ModeOf(request), tenants) {
        return false, false;
      }
      var ready := true;
      match request {
        case AskByo(_, _, _) =>
          var error := Byo(request, tenants, world);
          if error.Some? {
            return false, false;
          }
          ready := world.report.value.enabled;
        case AskConnect(_, _, _, _) =>
          var error := Connect(request, world);
          if error.Some? {
            return false, false;
          }
          ready := false;
        case _ =>
          if db.complete && db.mode == ModeOf(request) && db.policy == request.policy {
            return false, true;
          }
          db := Cleared(db);
      }
      db := db.(mode := ModeOf(request), policy := request.policy,
                enforcement := Platform(ModeOf(request)), complete := ready);
      ok := Reload(world.buildable);
      committed := true;
    }

    method Refresh(world: World) returns (committed: bool, ok: bool)
      modifies this
      ensures old(Valid()) && Honest(State(old(db), old(live), false), Action.Refresh(world), accountOf) ==> Valid()
      ensures match RefreshAccount(old(db), world)
        case Stored(after) =>
          committed && db == after && (live, ok) == Reloaded(after, old(live), world.buildable)
        case Unchanged => false
        case Refused(_) => !committed && !ok && db == old(db) && live == old(live)
    {
      ghost var before := State(db, live, false);
      if Valid() && Honest(before, Action.Refresh(world), accountOf) {
        RefreshKeepsConsistent(before, world, accountOf);
      }
      if db.account.None? || !Platform(db.mode) {
        return false, false;
      }
      if db.mode == PlatformByo {
        if ByoKey !in db.secrets || world.report.None? {
          return false, false;
        }
        db := db.(account := Some(Account(ByoKeys, world.report.value.id, world.report.value.enabled)));
      } else {
        if ConnectKey !in db.secrets || ConnectWebhook !in db.secrets || world.report.None? {
          return false, false;
        }
        if world.report.value.enabled && !world.catalogReady {
          return false, false;
        }
        db := db.(account := Some(Account(StripeConnect, world.report.value.id, world.report.value.enabled)));
        if world.report.value.enabled {
          db := db.(catalog := Some(world.report.value.id));
        }
      }
      db := db.(complete := world.report.value.enabled);
      ok := Reload(world.buildable);
      committed := true;
    }
  }

  function Opening(owner: string, policy: string, enforcement: bool): Db {
    Db(owner, Unconfigured, policy, enforcement, false, None, map[], None)
  }

  // ---------------------------------------------------------------- runs

  datatype State = State(db: Db, live: Option<Live>, tenants: bool)

  datatype Action =
    | Setup(actor: string, request: Request, world: World)
    | Refresh(world: World)
    | TenantsChange(billed: bool)

  function Next(s: State, action: Action): State {
    match action
    case TenantsChange(billed) => s.(tenants := billed)
    case Setup(actor, request, world) => After(s, CompleteSetup(s.db, actor, request, s.tenants, world), world)
    case Refresh(world) => After(s, RefreshAccount(s.db, world), world)
  }

  function After(s: State, outcome: Outcome, world: World): State {
    if outcome.Stored? then s.(db := outcome.db, live := Reloaded(outcome.db, s.live, world.buildable).0) else s
  }

  function Run(s: State, actions: seq<Action>): State {
    if actions == [] then s else Next(Run(s, actions[..|actions| - 1]), actions[|actions| - 1])
  }

  /** One account per key: a key's own account never changes, and an account asked for by id is the one
      reported. */
  ghost predicate Honest(s: State, action: Action, accountOf: string -> string) {
    match action
    case TenantsChange(_) => true
    case Setup(_, request, world) =>
      world.report.Some? ==>
        && (request.AskByo? ==> world.report.value.id == accountOf(request.key))
        && (request.AskConnect? && ReusedAccount(s.db).Some? ==> Some(world.report.value.id) == ReusedAccount(s.db))
    case Refresh(world) =>
      world.report.Some? ==>
        && (s.db.mode == PlatformByo && ByoKey in s.db.secrets ==>
              world.report.value.id == accountOf(s.db.secrets[ByoKey]))
        && (s.db.mode == PlatformConnect && s.db.account.Some? ==> world.report.value.id == s.db.account.value.id)
  }

  ghost predicate HonestRun(s: State, actions: seq<Action>, accountOf: string -> string) {
    forall i :: 0 <= i < |actions| ==> Honest(Run(s, actions[..i]), actions[i], accountOf)
  }

  function KindsFor(mode: Mode): set<SecretKind> {
    match mode
    case PlatformByo => {ByoKey, ByoWebhook}
    case PlatformConnect => {ConnectKey, ConnectWebhook}
    case _ => {}
  }

  /** What the tables always agree on. */
  ghost predicate Consistent(db: Db, accountOf: string -> string) {
    && (db.mode != Unconfigured ==> (db.enforcement <==> Platform(db.mode)))
    && db.secrets.Keys == KindsFor(db.mode)
    && (db.account.Some? <==> Platform(db.mode))
    && (db.account.Some? ==> BindingOf(db.mode) == Some(db.account.value.mode))
    && (db.catalog.Some? ==> db.account.Some? && db.catalog == Some(db.account.value.id))
    && (db.mode == PlatformByo ==> db.catalog.Some? && db.account.value.id == accountOf(db.secrets[ByoKey]))
    && (db.complete ==>
          || db.mode in {Private, Team}
          || (db.account.Some? && db.account.value.enabled && db.catalog == Some(db.account.value.id)))
  }

  lemma SetupKeepsConsistent(s: State, actor: string, request: Request, world: World, accountOf: string -> string)
    requires Consistent(s.db, accountOf) && Honest(s, Setup(actor, request, world), accountOf)
    ensures Consistent(Next(s, Setup(actor, request, world)).db, accountOf)
  {
  }

  lemma RefreshKeepsConsistent(s: State, world: World, accountOf: string -> string)
    requires Consistent(s.db, accountOf) && Honest(s, Refresh(world), accountOf)
    ensures Consistent(Next(s, Refresh(world)).db, accountOf)
  {
  }

  /** In every run from an unconfigured instance: setup is complete only in private or team mode or with an
      enabled account that owns the stored catalog, enforcement is on exactly in platform modes once the
      instance has been set up, and the stored secrets are those of the mode. */
  lemma {:induction false} SetupStaysConsistent(owner: string, policy: string, enforcement: bool, actions: seq<Action>,
                                                accountOf: string -> string)
    requires HonestRun(State(Opening(owner, policy, enforcement), None, false), actions, accountOf)
    ensures Consistent(Run(State(Opening(owner, policy, enforcement), None, false), actions).db, accountOf)
  {
    var start := State(Opening(owner, policy, enforcement), None, false);
    if actions == [] {
    } else {
      var n := |actions| - 1;
      HonestPrefix(start, actions, accountOf);
      SetupStaysConsistent(owner, policy, enforcement, actions[..n], accountOf);
      var before := Run(start, actions[..n]);
      match actions[n]
      case Setup(actor, request, world) => SetupKeepsConsistent(before, actor, request, world, accountOf);
      case Refresh(world) => RefreshKeepsConsistent(before, world, accountOf);
      case TenantsChange(_) =>
    }
  }

  // ---------------------------------------------------------------- billed tenants freeze the binding

  ghost predicate SameBinding(a: Db, b: Db) {
    && a.mode == b.mode
    && (a.account.Some? <==> b.account.Some?)
    && (a.account.Some? ==> a.account.value.id == b.account.value.id && a.account.value.mode == b.account.value.mode)
  }

  lemma StepKeepsBinding(s: State, action: Action, accountOf: string -> string)
    requires Consistent(s.db, accountOf) && Honest(s, action, accountOf) && s.tenants
    ensures SameBinding(s.db, Next(s, action).db)
  {
  }

  /** While some tenant is billed, neither the mode nor the account changes, however long the run. */
  lemma {:induction false} BilledTenantsFreezeBinding(owner: string, policy: string, enforcement: bool,
                                                      actions: seq<Action>, k: nat, accountOf: string -> string)
    requires HonestRun(State(Opening(owner, policy, enforcement), None, false), actions, accountOf)
    requires k <= |actions|
    requires forall i :: k <= i < |actions| ==>
      Run(State(Opening(owner, policy, enforcement), None, false), actions[..i]).tenants
    ensures SameBinding(Run(State(Opening(owner, policy, enforcement), None, false), actions[..k]).db,
                        Run(State(Opening(owner, policy, enforcement), None, false), actions).db)
  {
    var start := State(Opening(owner, policy, enforcement), None, false);
    var n := |actions|;
    assert actions[..n] == actions;
    if k == n {
    } else {
      var earlier := actions[..n - 1];
      forall i | 0 <= i <= n - 1 ensures earlier[..i] == actions[..i] { }
      HonestPrefix(start, actions, accountOf);
      forall i | k <= i < n - 1 ensures Run(start, earlier[..i]).tenants { assert earlier[..i] == actions[..i]; }
      BilledTenantsFreezeBinding(owner, policy, enforcement, earlier, k, accountOf);
      SetupStaysConsistent(owner, policy, enforcement, earlier, accountOf);
      StepKeepsBinding(Run(start, earlier), actions[n - 1], accountOf);
    }
  }

  // ---------------------------------------------------------------- what the owner asked for

  /** Secrets that cannot be the provider's are never taken. */
  lemma WrongSecretsRefused(secret: string)
    requires |secret| < 16 || 512 < |secret| || exists c :: c in secret && !('!' <= c <= '~')
    ensures !KeyValid(secret) && !WebhookValid(secret)
  {
    if c :| c in secret && !('!' <= c <= '~') {
      var i :| 0 <= i < |secret| && secret[i] == c;
    }
  }

  /** The last request that was stored. */
  function LastSetup(s: State, actions: seq<Action>): Option<Request> {
    if actions == [] then None
    else
      var n := |actions| - 1;
      var before, last := Run(s, actions[..n]), actions[n];
      if last.Setup? && CompleteSetup(before.db, last.actor, last.request, before.tenants, last.world).Stored?
      then Some(last.request) else LastSetup(s, actions[..n])
  }

  /** The tables hold what the request asked for: its policy, its mode, its secrets and no others. */
  predicate Carries(db: Db, request: Request) {
    && db.policy == request.policy
    && match request
       case AskPrivate(_) => db.mode == Private && db.secrets == map[]
       case AskTeam(_) => db.mode == Team && db.secrets == map[]
       case AskByo(_, key, webhook) => db.mode == PlatformByo && db.secrets == map[ByoKey := key, ByoWebhook := webhook]
       case AskConnect(_, key, webhook, _) =>
         db.mode == PlatformConnect && db.secrets == map[ConnectKey := key, ConnectWebhook := webhook]
  }

  /** Only the owner's setup is ever stored, and what is stored carries the request; nobody becomes owner. A
      request that is answered without storing anything finds its mode and policy in place. */
  lemma SetupCarries(db: Db, actor: string, request: Request, tenants: bool, world: World)
    ensures var outcome := CompleteSetup(db, actor, request, tenants, world);
      && (actor != db.owner ==> outcome == Refused(Forbidden))
      && (outcome.Stored? ==> actor == db.owner == outcome.db.owner && Carries(outcome.db, request))
      && (outcome.Unchanged? ==>
            && actor == db.owner && db.complete && db.policy == request.policy
            && (if request.AskPrivate? then db.mode == Private else request.AskTeam? && db.mode == Team))
  {
    var outcome := CompleteSetup(db, actor, request, tenants, world);
    if outcome.Stored? && request.AskByo? { ByoSecrets(db.secrets, request.key, request.webhook); }
  }

  lemma ByoSecrets(secrets: map<SecretKind, string>, key: string, webhook: string)
    ensures secrets[ByoKey := key][ByoWebhook := webhook] - {ConnectKey, ConnectWebhook}
         == map[ByoKey := key, ByoWebhook := webhook]
  {
    var left := secrets[ByoKey := key][ByoWebhook := webhook] - {ConnectKey, ConnectWebhook};
    forall kind | kind in left ensures kind in {ByoKey, ByoWebhook} {
      match kind
      case ByoKey =>
      case ByoWebhook =>
      case ConnectKey => assert false;
      case ConnectWebhook => assert false;
    }
  }

  /** What a refresh answers: nothing to refresh without an account, a conflict outside the platform modes, an
      invalid configuration without the mode's secrets, a provider failure without a report or, for an enabled
      connected account, without a catalog; otherwise the report is stored, and setup is complete exactly if the
      account is enabled. */
  lemma RefreshDecides(db: Db, world: World)
    ensures var out := RefreshAccount(db, world);
      var platform := db.mode in {PlatformByo, PlatformConnect};
      var secrets := if db.mode == PlatformByo then ByoKey in db.secrets
                     else ConnectKey in db.secrets && ConnectWebhook in db.secrets;
      var answered := world.report.Some?
        && (db.mode == PlatformConnect && world.report.value.enabled ==> world.catalogReady);
      && (out == Refused(NotFound) <==> db.account.None?)
      && (out == Refused(Conflict) <==> db.account.Some? && !platform)
      && (out == Refused(InvalidConfiguration) <==> db.account.Some? && platform && !secrets)
      && (out == Refused(ProviderFailed) <==> db.account.Some? && platform && secrets && !answered)
      && (out.Stored? <==> db.account.Some? && platform && secrets && answered)
      && (out.Stored? ==>
            && out.db.account == Some(Account(if db.mode == PlatformByo then ByoKeys else StripeConnect,
                                              world.report.value.id, world.report.value.enabled))
            && out.db.complete == world.report.value.enabled
            && out.db.catalog == (if db.mode == PlatformConnect && world.report.value.enabled
                                  then Some(world.report.value.id) else db.catalog)
            && out.db == db.(account := out.db.account, catalog := out.db.catalog, complete := out.db.complete))
  {
  }

  lemma RefreshCarries(db: Db, world: World)
    ensures var outcome := RefreshAccount(db, world);
      outcome.Stored? ==>
        && outcome.db.owner == db.owner && outcome.db.policy == db.policy && outcome.db.mode == db.mode
        && outcome.db.secrets == db.secrets
  {
  }

  /** In every run, honest or not, policy, mode and secrets are those of the last request that was stored, and an
      actor other than the owner changes nothing at all. */
  lemma {:induction false} InstanceCarriesLastSetup(s: State, actions: seq<Action>)
    ensures Run(s, actions).db.owner == s.db.owner
    ensures LastSetup(s, actions).Some? ==> Carries(Run(s, actions).db, LastSetup(s, actions).value)
    ensures LastSetup(s, actions).None? ==>
      Run(s, actions).db.policy == s.db.policy && Run(s, actions).db.mode == s.db.mode
      && Run(s, actions).db.secrets == s.db.secrets
    ensures forall actor, request, world ::
      actor != s.db.owner ==> Next(Run(s, actions), Setup(actor, request, world)) == Run(s, actions)
  {
    if actions == [] {
    } else {
      var n := |actions| - 1;
      InstanceCarriesLastSetup(s, actions[..n]);
      var before := Run(s, actions[..n]);
      match actions[n]
      case Setup(actor, request, world) => SetupCarries(before.db, actor, request, before.tenants, world);
      case Refresh(world) => RefreshCarries(before.db, world);
      case TenantsChange(_) =>
    }
  }

  // ---------------------------------------------------------------- what the eager account argument costs

  /** A request that would configure own keys is refused exactly when no account is stored, a tenant is
      billed elsewhere or to another account, or the keys, the provider or the catalog fail; the first
      refusal is the same BillingInUse that protects billed tenants, billed or not. */
  lemma ByoSetupSucceedsExactly(db: Db, request: Request, tenants: bool, world: World)
    requires request.AskByo?
    ensures CompleteSetup(db, db.owner, request, tenants, world).Stored? <==>
      && db.account.Some?
      && (tenants ==> db.mode == PlatformByo && db.account.value.mode == ByoKeys
                      && (world.report.Some? ==> world.report.value.id == db.account.value.id))
      && KeyValid(request.key) && WebhookValid(request.webhook)
      && world.report.Some? && world.catalogReady && world.buildable
    ensures db.account.None? ==> CompleteSetup(db, db.owner, request, tenants, world) == Refused(BillingInUse)
  {
  }

  lemma NoAccountWithoutConnect(s: State, action: Action)
    requires s.db.account.None? && !Platform(s.db.mode) && !(action.Setup? && action.request.AskConnect?)
    ensures Next(s, action).db.account.None? && !Platform(Next(s, action).db.mode)
  {
  }

  /** So an instance on which connect was never asked for never comes to use its own keys. */
  lemma {:induction false} OwnKeysNeedConnectFirst(owner: string, policy: string, enforcement: bool,
                                                   actions: seq<Action>)
    requires forall a :: a in actions ==> !(a.Setup? && a.request.AskConnect?)
    ensures var db := Run(State(Opening(owner, policy, enforcement), None, false), actions).db;
      db.account.None? && !Platform(db.mode)
  {
    if actions == [] {
    } else {
      var n := |actions| - 1;
      assert forall a :: a in actions[..n] ==> a in actions;
      assert actions[n] in actions;
      OwnKeysNeedConnectFirst(owner, policy, enforcement, actions[..n]);
      var start := State(Opening(owner, policy, enforcement), None, false);
      NoAccountWithoutConnect(Run(start, actions[..n]), actions[n]);
    }
  }

  /** First setup with own keys on an idle instance: refused as if billing were in use. */
  lemma FirstOwnKeysSetupIsRefused()
    ensures var key, webhook := "sk_test_0123456789", "whsec_0123456789";
      KeyValid(key) && WebhookValid(webhook)
      && CompleteSetup(Opening("owner", "open", false), "owner", AskByo("open", key, webhook), false,
                       World(Some(Report("acct_0123456789", true)), true, true)) == Refused(BillingInUse)
  {
  }

  // ---------------------------------------------------------------- the client in memory

  /** The client the stored state calls for: that of an enabled account which owns the catalog, is bound to
      the mode and has its key; otherwise none. */
  function Called(db: Db): Option<Live> {
    if && Platform(db.mode) && db.account.Some? && db.account.value.enabled
       && db.catalog == Some(db.account.value.id) && BindingOf(db.mode) == Some(db.account.value.mode)
       && KeyKind(db.mode) in db.secrets
    then Some(Live(db.account.value.mode, db.secrets[KeyKind(db.mode)], db.account.value.id))
    else None
  }

  /** What a reload needs: nothing to activate, or an account that owns the catalog and is bound to the mode,
      its key, and a client that can be built. */
  predicate Reloadable(db: Db, buildable: bool) {
    || !Platform(db.mode) || db.account.None? || !db.account.value.enabled
    || (&& db.catalog == Some(db.account.value.id) && BindingOf(db.mode) == Some(db.account.value.mode)
        && KeyKind(db.mode) in db.secrets && buildable)
  }

  lemma ReloadCalls(db: Db, live: Option<Live>, buildable: bool)
    ensures Reloaded(db, live, buildable) == if Reloadable(db, buildable) then (Called(db), true) else (live, false)
  {
  }

  /** After a stored change the client in use is the one called for exactly if the new state can be reloaded
      or the old client is the one already. */
  lemma ClientFollowsExactly(s: State, outcome: Outcome, world: World)
    requires outcome.Stored?
    ensures After(s, outcome, world).live == Called(outcome.db)
        <==> Reloadable(outcome.db, world.buildable) || s.live == Called(outcome.db)
  {
    ReloadCalls(outcome.db, s.live, world.buildable);
  }

  /** The outcome of an action, if it asks for one. */
  function OutcomeOf(s: State, action: Action): Option<Outcome> {
    match action
    case Setup(actor, request, world) => Some(CompleteSetup(s.db, actor, request, s.tenants, world))
    case Refresh(world) => Some(RefreshAccount(s.db, world))
    case TenantsChange(_) => None
  }

  predicate Stores(s: State, action: Action) { OutcomeOf(s, action).Some? && OutcomeOf(s, action).value.Stored? }

  /** The last action of a run that stored a change. */
  function LastStored(s: State, actions: seq<Action>): Option<Action> {
    if actions == [] then None
    else
      var n := |actions| - 1;
      if Stores(Run(s, actions[..n]), actions[n]) then Some(actions[n]) else LastStored(s, actions[..n])
  }

  /** The changes after which a reload can fail: connect set up for an account reported enabled, or a client
      that cannot be built. */
  predicate MayOutdate(action: Action) {
    || (action.Setup? && action.request.AskConnect? && action.world.report.Some? && action.world.report.value.enabled)
    || (!action.TenantsChange? && !action.world.buildable)
  }

  /** Every other stored change can be reloaded. */
  lemma StoredIsReloadable(s: State, action: Action, accountOf: string -> string)
    requires Consistent(s.db, accountOf) && Honest(s, action, accountOf) && Stores(s, action) && !MayOutdate(action)
    ensures Reloadable(OutcomeOf(s, action).value.db, action.world.buildable)
  {
    match action
    case Setup(actor, request, world) => SetupKeepsConsistent(s, actor, request, world, accountOf);
    case Refresh(world) => RefreshKeepsConsistent(s, world, accountOf);
  }

  /** In every honest run from an unconfigured instance the client in use is the one the stored state calls
      for, none if it calls for none, unless the last stored change set connect up for an account reported
      enabled or was followed by a client that could not be built. */
  lemma {:induction false} ClientStaysInStep(owner: string, policy: string, enforcement: bool, actions: seq<Action>,
                                             accountOf: string -> string)
    requires HonestRun(State(Opening(owner, policy, enforcement), None, false), actions, accountOf)
    ensures var start := State(Opening(owner, policy, enforcement), None, false);
      var now, last := Run(start, actions), LastStored(start, actions);
      now.live == Called(now.db) || (last.Some? && MayOutdate(last.value))
  {
    var start := State(Opening(owner, policy, enforcement), None, false);
    if actions == [] {
    } else {
      var n := |actions| - 1;
      HonestPrefix(start, actions, accountOf);
      ClientStaysInStep(owner, policy, enforcement, actions[..n], accountOf);
      SetupStaysConsistent(owner, policy, enforcement, actions[..n], accountOf);
      ClientStep(Run(start, actions[..n]), actions[n], accountOf);
    }
  }

  /** The stored state at the last change that could be reloaded, the first state if there was none. */
  function LastReloaded(s: State, actions: seq<Action>): Db {
    if actions == [] then s.db
    else
      var n := |actions| - 1;
      var before := Run(s, actions[..n]);
      if Stores(before, actions[n])
         && Reloadable(OutcomeOf(before, actions[n]).value.db, actions[n].world.buildable)
      then OutcomeOf(before, actions[n]).value.db
      else LastReloaded(s, actions[..n])
  }

  /** In every run, honest or not, the client in use is the one called for by the last state that could be
      reloaded; so it is the right one exactly if that state and the present one call for the same. */
  lemma {:induction false} ClientIsLastReloaded(s: State, actions: seq<Action>)
    requires s.live == Called(s.db)
    ensures Run(s, actions).live == Called(LastReloaded(s, actions))
  {
    if actions == [] {
    } else {
      var n := |actions| - 1;
      ClientIsLastReloaded(s, actions[..n]);
      ReloadStep(Run(s, actions[..n]), actions[n]);
    }
  }

  lemma ReloadStep(s: State, action: Action)
    ensures Next(s, action).live
         == if Stores(s, action) && Reloadable(OutcomeOf(s, action).value.db, action.world.buildable)
            then Called(OutcomeOf(s, action).value.db) else s.live
  {
    if Stores(s, action) { ReloadCalls(OutcomeOf(s, action).value.db, s.live, action.world.buildable); }
  }

  lemma HonestPrefix(s: State, actions: seq<Action>, accountOf: string -> string)
    requires actions != [] && HonestRun(s, actions, accountOf)
    ensures HonestRun(s, actions[..|actions| - 1], accountOf)
    ensures Honest(Run(s, actions[..|actions| - 1]), actions[|actions| - 1], accountOf)
  {
    var n := |actions| - 1;
    forall i | 0 <= i < n ensures Honest(Run(s, actions[..n][..i]), actions[..n][i], accountOf) {
      assert actions[..n][..i] == actions[..i];
    }
  }

  lemma ClientStep(s: State, action: Action, accountOf: string -> string)
    requires Consistent(s.db, accountOf) && Honest(s, action, accountOf)
    ensures var next := Next(s, action);
      if Stores(s, action) then next.live == Called(next.db) || MayOutdate(action)
      else next.db == s.db && next.live == s.live
  {
    if Stores(s, action) && !MayOutdate(action) {
      StoredIsReloadable(s, action, accountOf);
      ClientFollowsExactly(s, OutcomeOf(s, action).value, action.world);
    }
  }

  /** Setting connect up again for an enabled account drops the catalog, so the reload fails: the caller
      hears an error although the setup was stored, and the old client stays in use although none is called
      for. */
  lemma ConnectAgainLeavesOldClient(s: State, request: Request, world: World)
    requires request.AskConnect? && s.live.Some?
    requires CompleteSetup(s.db, s.db.owner, request, s.tenants, world).Stored?
    ensures var after := Next(s, Setup(s.db.owner, request, world));
      var reloaded := Reloaded(after.db, s.live, world.buildable);
      && Called(after.db) == None
      && if world.report.value.enabled then !reloaded.1 && after.live == s.live else reloaded.1 && after.live == None
  {
  }

  /** Connect set up for an account that is not enabled yet. */
  function Connecting(owner: string, key: string, webhook: string, account: string): Action {
    Setup(owner, AskConnect("open", key, webhook, true), World(Some(Report(account, false)), true, true))
  }

  function Enabled(account: string, buildable: bool): Action {
    Refresh(World(Some(Report(account, true)), true, buildable))
  }

  function ConnectingAgain(owner: string, key: string, webhook: string, account: string): Action {
    Setup(owner, AskConnect("open", key, webhook, true), World(Some(Report(account, true)), true, true))
  }

  /** The state in which connect is set up, its account enabled or not yet. */
  function Connected(owner: string, key: string, webhook: string, account: string, enabled: bool): Db {
    Db(owner, PlatformConnect, "open", true, enabled, Some(Account(StripeConnect, account, enabled)),
       map[ConnectKey := key, ConnectWebhook := webhook], if enabled then Some(account) else None)
  }

  lemma ConnectRun(owner: string, key: string, webhook: string, account: string, buildable: bool)
    requires KeyValid(key) && WebhookValid(webhook)
    ensures var start := State(Opening(owner, "open", false), None, false);
      var mid := Next(start, Connecting(owner, key, webhook, account));
      var after := Next(mid, Enabled(account, buildable));
      && mid == State(Connected(owner, key, webhook, account, false), None, false)
      && after.db == Connected(owner, key, webhook, account, true)
      && after.live == (if buildable then Some(Live(StripeConnect, key, account)) else None)
      && Called(after.db) == Some(Live(StripeConnect, key, account))
  {
  }

  lemma RunOfTwo(s: State, a: Action, b: Action)
    ensures Run(s, [a, b]) == Next(Next(s, a), b)
  {
    assert [a, b][..1] == [a] && [a][..0] == [];
    assert Run(s, [a]) == Next(s, a);
  }

  lemma RunOfThree(s: State, a: Action, b: Action, c: Action)
    ensures Run(s, [a, b, c]) == Next(Next(Next(s, a), b), c)
  {
    assert [a, b, c][..2] == [a, b];
    RunOfTwo(s, a, b);
  }

  lemma ExampleSecrets()
    ensures KeyValid("sk_test_0123456789") && KeyValid("sk_live_0123456789") && WebhookValid("whsec_0123456789")
  {
  }

  /** Concretely: connect, the account becomes enabled, connect again with a new key. No client is called for,
      the one with the old key is in use. */
  lemma ConnectAgainExample()
    ensures var start := State(Opening("owner", "open", false), None, false);
      var now := Run(start, [Connecting("owner", "sk_test_0123456789", "whsec_0123456789", "acct_0123456789"),
                             Enabled("acct_0123456789", true),
                             ConnectingAgain("owner", "sk_live_0123456789", "whsec_0123456789", "acct_0123456789")]);
      && Called(now.db) == None
      && now.live == Some(Live(StripeConnect, "sk_test_0123456789", "acct_0123456789"))
  {
    ExampleSecrets();
    ConnectAgainRun("owner", "sk_test_0123456789", "sk_live_0123456789", "whsec_0123456789", "acct_0123456789");
  }

  lemma ConnectAgainRun(owner: string, key: string, newKey: string, webhook: string, account: string)
    requires KeyValid(key) && KeyValid(newKey) && WebhookValid(webhook)
    ensures var start := State(Opening(owner, "open", false), None, false);
      var now := Run(start, [Connecting(owner, key, webhook, account), Enabled(account, true),
                             ConnectingAgain(owner, newKey, webhook, account)]);
      Called(now.db) == None && now.live == Some(Live(StripeConnect, key, account))
  {
    var start := State(Opening(owner, "open", false), None, false);
    var one, two := Connecting(owner, key, webhook, account), Enabled(account, true);
    var three := ConnectingAgain(owner, newKey, webhook, account);
    RunOfThree(start, one, two, three);
    ConnectRun(owner, key, webhook, account, true);
    var mid := Next(Next(start, one), two);
    ConnectAgainLeavesOldClient(mid, three.request, three.world);
  }

  /** Concretely: connect, the account becomes enabled, but the client cannot be built. Setup is complete and
      a client is called for, yet none is in use. */
  lemma UnbuildableExample()
    ensures var start := State(Opening("owner", "open", false), None, false);
      var now := Run(start, [Connecting("owner", "sk_test_0123456789", "whsec_0123456789", "acct_0123456789"),
                             Enabled("acct_0123456789", false)]);
      && now.db.complete && now.live == None
      && Called(now.db) == Some(Live(StripeConnect, "sk_test_0123456789", "acct_0123456789"))
  {
    ExampleSecrets();
    var start := State(Opening("owner", "open", false), None, false);
    ConnectRun("owner", "sk_test_0123456789", "whsec_0123456789", "acct_0123456789", false);
    RunOfTwo(start, Connecting("owner", "sk_test_0123456789", "whsec_0123456789", "acct_0123456789"),
             Enabled("acct_0123456789", false));
  }
}
