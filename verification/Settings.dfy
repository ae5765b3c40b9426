/** Where a stored credential came from: the CAPTCHA secret and the SMTP password, over
    every sequence of partial patches, concurrent saves and interrupted writes. */
module Settings {
  import opened Wrappers

  predicate IsSpace(c: char) {
    c == ' ' || c == '\t' || c == '\n' || c == '\r'
  }

  function TrimLeft(s: string): string {
    if s != [] && IsSpace(s[0]) then TrimLeft(s[1..]) else s
  }

  function TrimRight(s: string): string {
    if s != [] && IsSpace(s[|s| - 1]) then TrimRight(s[..|s| - 1]) else s
  }

  function Trim(s: string): string {
    TrimRight(TrimLeft(s))
  }

  /** A stored text as read back: blank counts as unset. */
  function Str(s: Option<string>): Option<string> {
    if s.Some? && Trim(s.value) != [] then s else None
  }

  function Or<T>(a: Option<T>, b: T): T {
    if a.Some? then a.value else b
  }

  /* ── CAPTCHA ───────────────────────────────────────────────────────────── */

  datatype Provider = NoProvider | Vendor(name: string)

  datatype Captcha = Captcha(enabled: bool, provider: Provider, siteKey: Option<string>)

  /** A stored secret: `value` is `None` when it no longer decrypts, `suppliedFor` the
      provider it was sent in for. `version` changes with every write. */
  datatype Secret = Secret(version: nat, value: Option<string>, suppliedFor: Provider)

  datatype ConfigRow = ConfigRow(version: nat, captcha: Captcha)

  /** What a challenge is: the vendor, the trimmed site key and the secret. */
  datatype Challenge = Challenge(provider: Provider, siteKey: string, secret: string)

  datatype CaptchaRows = CaptchaRows(config: Option<ConfigRow>, secret: Option<Secret>)

  /** A partial update: an absent field is left alone, `Some(None)` clears. */
  datatype CaptchaPatch = CaptchaPatch(
    enabled: Option<bool>, provider: Option<Provider>, siteKey: Option<Option<string>>, secret: Option<Option<string>>)

  /** A patch merged over the rows it was resolved against. */
  datatype CaptchaPlan = CaptchaPlan(next: Captcha, seen: CaptchaRows, secret: Option<Option<string>>,
      selfTested: Option<Challenge>)

  function CaptchaOf(rows: CaptchaRows): Captcha {
    if rows.config.None? then Captcha(false, NoProvider, None)
    else rows.config.value.captcha.(siteKey := Str(rows.config.value.captcha.siteKey))
  }

  function Readable(secret: Option<Secret>): Option<string> {
    if secret.None? then None else secret.value.value
  }

  function Site(key: Option<string>): string {
    if key.None? then [] else Trim(key.value)
  }

  function Merge(current: Captcha, patch: CaptchaPatch): Captcha {
    Captcha(Or(patch.enabled, current.enabled), Or(patch.provider, current.provider),
        Or(patch.siteKey, current.siteKey))
  }

  /** The secret a plan would leave in place. */
  function Intended(seen: CaptchaRows, secret: Option<Option<string>>): Option<string> {
    if secret.None? then Readable(seen.secret) else secret.value
  }

  /** Resolving a patch; `accepts` is the vendor's answer to the self-test, if one is made.
      `None` is a refusal. */
  function PlanFor(rows: CaptchaRows, patch: CaptchaPatch, accepts: Challenge -> bool): Option<CaptchaPlan> {
    var current := CaptchaOf(rows);
    var next := Merge(current, patch);
    if next.provider != NoProvider && next.provider != current.provider && patch.secret.None?
      && rows.secret.Some? then None
    else if !next.enabled then Some(CaptchaPlan(next, rows, patch.secret, None))
    else
      var secret := Or(Intended(rows, patch.secret), "");
      if next.provider == NoProvider || Site(next.siteKey) == [] || Trim(secret) == [] then None
      else if next.provider != current.provider && patch.secret.None? then None
      else if current.enabled && next.provider == current.provider && Site(next.siteKey) == Site(current.siteKey)
        && patch.secret.None?
      then Some(CaptchaPlan(next, rows, patch.secret, None))
      else
        var challenge := Challenge(next.provider, Site(next.siteKey), secret);
        if accepts(challenge) then Some(CaptchaPlan(next, rows, patch.secret, Some(challenge))) else None
  }

  predicate SameConfig(a: CaptchaRows, b: CaptchaRows) {
    a.config.Some? == b.config.Some? && (a.config.Some? ==> a.config.value.version == b.config.value.version)
  }

  /** The fingerprint a plan is committed against: which rows were there, at which versions. */
  predicate SameVersions(a: CaptchaRows, b: CaptchaRows) {
    && SameConfig(a, b)
    && a.secret.Some? == b.secret.Some? && (a.secret.Some? ==> a.secret.value.version == b.secret.value.version)
  }

  /** A stored secret was supplied for the stored provider, or there is none. */
  predicate CaptchaProvenance(rows: CaptchaRows) {
    rows.secret.Some? && CaptchaOf(rows).provider != NoProvider ==>
        rows.secret.value.suppliedFor == CaptchaOf(rows).provider
  }

  /** An enabled challenge whose secret can be read was accepted by a self-test. */
  ghost predicate CaptchaProven(rows: CaptchaRows, accepted: set<Challenge>) {
    CaptchaOf(rows).enabled && Readable(rows.secret).Some? ==>
      Challenge(CaptchaOf(rows).provider, Site(CaptchaOf(rows).siteKey), Readable(rows.secret).value) in accepted
  }

  /** An enabled challenge has a secret to be served with. */
  predicate CaptchaWhole(rows: CaptchaRows) {
    CaptchaOf(rows).enabled ==> Readable(rows.secret).Some?
  }

  lemma StrIsStable(s: Option<string>)
    ensures Str(Str(s)) == Str(s) && Site(Str(s)) == Site(s)
  {}

  /** The rows after each of a commit's writes: the replaced secret goes first, the
      configuration moves, and the new secret comes last. */
  function AfterDelete(rows: CaptchaRows, plan: CaptchaPlan): CaptchaRows {
    if plan.secret.None? then rows else rows.(secret := None)
  }

  function AfterConfig(rows: CaptchaRows, plan: CaptchaPlan, version: nat): CaptchaRows {
    AfterDelete(rows, plan).(config := Some(ConfigRow(version, plan.next)))
  }

  function AfterSecret(rows: CaptchaRows, plan: CaptchaPlan, version: nat): CaptchaRows {
    var moved := AfterConfig(rows, plan, version);
    if plan.secret.Some? && plan.secret.value.Some? && plan.secret.value.value != ""
    then moved.(secret := Some(Secret(version + 1, plan.secret.value, plan.next.provider)))
    else moved
  }

  /** Whether the rows a commit finds are the ones its plan was resolved over, but for a
      secret that has gone since. */
  predicate StillSeen(rows: CaptchaRows, seen: CaptchaRows) {
    rows.config == seen.config && (rows.secret == seen.secret || rows.secret.None?)
  }

  /** Every state a commit passes through keeps its credentials where they came from, and it
      ends with an enabled challenge without a secret exactly when the plan counted on a
      stored one that is no longer there. */
  lemma CommitKeepsProvenance(rows: CaptchaRows, seen: CaptchaRows, patch: CaptchaPatch, accepts: Challenge -> bool,
      accepted: set<Challenge>, version: nat)
    requires CaptchaProvenance(rows) && CaptchaProven(rows, accepted) && PlanFor(seen, patch, accepts).Some?
             && StillSeen(rows, seen)
    requires var plan := PlanFor(seen, patch, accepts).value; plan.selfTested.Some? ==>
             plan.selfTested.value in accepted
    ensures
      var plan := PlanFor(seen, patch, accepts).value;
      && CaptchaProvenance(AfterDelete(rows, plan)) && CaptchaProven(AfterDelete(rows, plan), accepted)
      && CaptchaProvenance(AfterConfig(rows, plan, version))
      && CaptchaProven(AfterConfig(rows, plan, version), accepted)
      && CaptchaProvenance(AfterSecret(rows, plan, version))
      && CaptchaProven(AfterSecret(rows, plan, version), accepted)
      && (CaptchaWhole(AfterSecret(rows, plan, version))
          <==> !plan.next.enabled || plan.secret.Some? || Readable(rows.secret).Some?)
  {
    StrIsStable(PlanFor(seen, patch, accepts).value.next.siteKey);
  }

  /* ── SMTP ──────────────────────────────────────────────────────────────── */

  datatype Connection = Connection(host: Option<string>, port: nat, secure: bool, user: Option<string>)

  datatype Environment = Environment(connection: Connection, password: Option<string>)

  /** The stored overrides; an unset field falls back to the environment's. */
  datatype Smtp = Smtp(host: Option<string>, port: Option<nat>, secure: Option<bool>, user: Option<string>,
      from: Option<string>)

  const EMPTY_SMTP := Smtp(None, None, None, None, None)

  /** `value` is `None` when the stored password no longer decrypts. */
  datatype Password = Password(value: Option<string>, suppliedFor: Connection)

  datatype SmtpRows = SmtpRows(config: Option<Smtp>, password: Option<Password>)

  datatype SmtpPatch = SmtpPatch(
    host: Option<Option<string>>, port: Option<Option<nat>>, secure: Option<Option<bool>>,
    user: Option<Option<string>>, from: Option<Option<string>>, password: Option<Option<string>>)

  function StoredSmtp(config: Option<Smtp>): Smtp {
    if config.None? then EMPTY_SMTP
    else config.value.(host := Str(config.value.host), user := Str(config.value.user), from := Str(config.value.from))
  }

  /** The connection in force: each override where it is set, the environment elsewhere. */
  function Effective(stored: Smtp, env: Environment): Connection {
    Connection(if Str(stored.host).Some? then Str(stored.host) else env.connection.host,
               Or(stored.port, env.connection.port),
               Or(stored.secure, env.connection.secure),
               if Str(stored.user).Some? then Str(stored.user) else env.connection.user)
  }

  predicate MatchesEnvironment(stored: Smtp, env: Environment) {
    Effective(stored, env) == env.connection
  }

  function MergeSmtp(current: Smtp, patch: SmtpPatch): Smtp {
    Smtp(Or(patch.host, current.host), Or(patch.port, current.port), Or(patch.secure, current.secure),
         Or(patch.user, current.user), Or(patch.from, current.from))
  }

  /** Whether a patch is admitted over the stored rows. */
  predicate Admits(rows: SmtpRows, patch: SmtpPatch, env: Environment) {
    var current := StoredSmtp(rows.config);
    var next := MergeSmtp(current, patch);
    var clearing := patch.password == Some(None) || patch.password == Some(Some(""));
    var changed := Effective(next, env) != Effective(current, env);
    && !(clearing && !MatchesEnvironment(next, env))
    && !(changed && (rows.password.Some? || env.password.Some?) && !GivesPassword(patch))
  }

  /** A stored password was supplied for the connection in force. */
  predicate SmtpProvenance(rows: SmtpRows, env: Environment) {
    rows.password.Some? ==> rows.password.value.suppliedFor == Effective(StoredSmtp(rows.config), env)
  }

  /** The environment's password, when it is the one presented, goes to its own connection. */
  predicate EnvironmentKept(rows: SmtpRows, env: Environment) {
    rows.password.None? && env.password.Some? ==> MatchesEnvironment(StoredSmtp(rows.config), env)
  }

  /** What the mailer presents, and to which connection: the stored password, none if it
      cannot be read, and without an override the environment's, but only while the
      connection in force is the environment's own. */
  function Presented(rows: SmtpRows, env: Environment): Option<(Connection, string)> {
    var stored := StoredSmtp(rows.config);
    var password :=
      if rows.password.Some? then rows.password.value.value
      else if MatchesEnvironment(stored, env) then env.password
      else None;
    if password.None? then None else Some((Effective(stored, env), password.value))
  }

  /** Whatever is presented to a connection was supplied for it. */
  predicate PresentedRightly(rows: SmtpRows, env: Environment) {
    Presented(rows, env).Some? ==>
      Presented(rows, env).value.0 == if rows.password.Some? then rows.password.value.suppliedFor else env.connection
  }

  lemma PresentedIsSupplied(rows: SmtpRows, env: Environment)
    requires SmtpProvenance(rows, env)
    ensures PresentedRightly(rows, env)
  {}

  predicate GivesPassword(patch: SmtpPatch) {
    patch.password.Some? && patch.password.value.Some? && patch.password.value.value != ""
  }

  function SmtpAfterDelete(rows: SmtpRows, patch: SmtpPatch): SmtpRows {
    if patch.password.None? then rows else rows.(password := None)
  }

  function SmtpAfterConfig(rows: SmtpRows, patch: SmtpPatch): SmtpRows {
    SmtpAfterDelete(rows, patch).(config := Some(MergeSmtp(StoredSmtp(rows.config), patch)))
  }

  function SmtpAfterPassword(rows: SmtpRows, patch: SmtpPatch, env: Environment): SmtpRows {
    var moved := SmtpAfterConfig(rows, patch);
    if GivesPassword(patch)
    then moved.(password := Some(Password(patch.password.value, Effective(StoredSmtp(moved.config), env))))
    else moved
  }

  lemma EffectiveIsStable(stored: Smtp, env: Environment)
    ensures Effective(StoredSmtp(Some(stored)), env) == Effective(stored, env)
  {}

  /** Every state an update passes through has no password of another connection, and the
      one it ends in leaves the environment's password to the environment's connection. */
  lemma UpdateKeepsProvenance(rows: SmtpRows, patch: SmtpPatch, env: Environment)
    requires SmtpProvenance(rows, env) && Admits(rows, patch, env)
    ensures SmtpProvenance(SmtpAfterDelete(rows, patch), env)
    ensures SmtpProvenance(SmtpAfterConfig(rows, patch), env)
    ensures SmtpProvenance(SmtpAfterPassword(rows, patch, env), env)
    ensures EnvironmentKept(rows, env) ==> EnvironmentKept(SmtpAfterPassword(rows, patch, env), env)
  {
    EffectiveIsStable(MergeSmtp(StoredSmtp(rows.config), patch), env);
  }

  /* ── The service ───────────────────────────────────────────────────────── */

  /** The settings rows, and what is known of them: `plans` are the patches resolved so far,
      each with the fingerprint it was taken under, `accepted` the challenges that passed a
      self-test, `visible` every state that a reader may have seen. */
  class Service {
    const env: Environment
    var captcha: CaptchaRows
    var smtp: SmtpRows
    var versions: nat
    ghost var plans: set<(CaptchaRows, CaptchaPlan)>
    ghost var accepted: set<Challenge>
    ghost var visible: seq<(CaptchaRows, SmtpRows)>

    constructor (env: Environment)
      ensures Valid() && this.env == env && captcha == CaptchaRows(None, None) && smtp == SmtpRows(None, None)
      ensures EnvironmentKept(smtp, env) && CaptchaWhole(captcha)
    {
      this.env := env;
      captcha, smtp, versions := CaptchaRows(None, None), SmtpRows(None, None), 0;
      plans, accepted, visible := {}, {}, [];
    }

    /** Whether every version in `rows` was handed out before: true of any two rows that were
        ever read, at whatever two moments. */
    ghost predicate HandedOut(rows: CaptchaRows)
      reads this
    {
      && (rows.config.Some? ==> rows.config.value.version < versions)
      && (rows.secret.Some? ==> rows.secret.value.version < versions)
    }

    /** Whether `plan` is what resolving some patch over the rows it saw gives, with its
        self-test, if any, on record; and while its fingerprint still fits, those rows have
        lost nothing but, at most, a secret. */
    ghost predicate Resolved(fingerprint: CaptchaRows, plan: CaptchaPlan)
      reads this
    {
      && HandedOut(fingerprint)
      && (SameConfig(captcha, fingerprint) ==> captcha.config == plan.seen.config)
      && (SameVersions(captcha, fingerprint) && captcha.secret.Some? ==> captcha.secret == plan.seen.secret)
      && (plan.selfTested.Some? ==> plan.selfTested.value in accepted)
      && exists patch, accepts :: PlanFor(plan.seen, patch, accepts) == Some(plan)
    }

    /** At every write so far, and now, each stored credential belongs to what it is stored
        with, an enabled challenge was proven, and a relay is presented only a password that
        was supplied for it. */
    ghost predicate Valid()
      reads this
    {
      && CaptchaProvenance(captcha) && CaptchaProven(captcha, accepted) && SmtpProvenance(smtp, env)
      && HandedOut(captcha)
      && (forall f, plan :: (f, plan) in plans ==> Resolved(f, plan))
      && (forall i :: 0 <= i < |visible| ==>
            && CaptchaProvenance(visible[i].0) && CaptchaProven(visible[i].0, accepted)
            && SmtpProvenance(visible[i].1, env)
            && PresentedRightly(visible[i].1, env))
    }

    /** Resolve a patch against the rows as they are, before any transaction, under a
        fingerprint whose rows were read, one by one, at any earlier moments. */
    method PlanCaptcha(fingerprint: CaptchaRows, patch: CaptchaPatch, accepts: Challenge -> bool)
        returns (plan: Option<CaptchaPlan>)
      requires Valid() && HandedOut(fingerprint)
      modifies this`plans, this`accepted
      ensures Valid() && plan == PlanFor(captcha, patch, accepts)
      ensures plan.Some? ==> (fingerprint, plan.value) in plans
      ensures old(plans) <= plans && old(accepted) <= accepted
      ensures forall c :: c in accepted - old(accepted) ==> accepts(c)
    {
      plan := PlanFor(captcha, patch, accepts);
      if plan.Some? {
        if plan.value.selfTested.Some? {
          accepted := accepted + {plan.value.selfTested.value};
        }
        plans := plans + {(fingerprint, plan.value)};
      }
    }

    /** Make one write of the SMTP rows visible. */
    method PutSmtp(rows: SmtpRows)
      requires Valid() && SmtpProvenance(rows, env)
      modifies this`smtp, this`visible
      ensures Valid() && smtp == rows && visible == old(visible) + [(captcha, smtp)]
    {
      PresentedIsSupplied(rows, env);
      smtp := rows;
      visible := visible + [(captcha, smtp)];
    }

    /** Make one write of the CAPTCHA rows visible: each row as it was, or at a version above
        every earlier one, or the secret gone. */
    method PutCaptcha(rows: CaptchaRows, version: nat)
      requires Valid() && CaptchaProvenance(rows) && CaptchaProven(rows, accepted) && versions <= version
      requires rows.config == captcha.config || (rows.config.Some? && versions <= rows.config.value.version < version)
      requires rows.secret == captcha.secret || rows.secret.None? || versions <= rows.secret.value.version < version
      modifies this`captcha, this`visible, this`versions
      ensures Valid() && captcha == rows && versions == version && visible == old(visible) + [(captcha, smtp)]
    {
      PresentedIsSupplied(smtp, env);
      captcha := rows;
      versions := version;
      visible := visible + [(captcha, smtp)];
      forall f, plan | (f, plan) in plans ensures Resolved(f, plan) {
        assert old(Resolved(f, plan));
      }
    }

    /** Commit a plan made at any earlier time, if the rows are still at its fingerprint.
        `writes` of its three writes land; a store without transactions may stop short. */
    method CommitCaptcha(fingerprint: CaptchaRows, plan: CaptchaPlan, writes: nat) returns (committed: bool)
      requires Valid() && (fingerprint, plan) in plans
      modifies this`captcha, this`versions, this`visible
      ensures Valid() && old(visible) <= visible
      ensures committed == SameVersions(old(captcha), fingerprint)
      ensures !committed ==> captcha == old(captcha) && visible == old(visible)
      ensures committed ==> captcha == (match writes
                                        case 0 => old(captcha)
                                        case 1 => AfterDelete(old(captcha), plan)
                                        case 2 => AfterConfig(old(captcha), plan, old(versions))
                                        case _ => AfterSecret(old(captcha), plan, old(versions)))
      ensures committed && writes >= 3 ==>
                (CaptchaWhole(captcha)
                 <==> !plan.next.enabled || plan.secret.Some? || old(Readable(captcha.secret)).Some?)
      ensures committed && writes >= 3 && old(captcha) == plan.seen ==> CaptchaWhole(captcha)
    {
      committed := SameVersions(captcha, fingerprint);
      if !committed { return; }
      PlanHolds(fingerprint, plan);
      var first := versions;
      if writes > 0 {
        PutCaptcha(AfterDelete(captcha, plan), versions);
      }
      if writes > 1 {
        PutCaptcha(captcha.(config := Some(ConfigRow(first, plan.next))), first + 1);
      }
      if writes > 2 && plan.secret.Some? && plan.secret.value.Some? && plan.secret.value.value != "" {
        PutCaptcha(captcha.(secret := Some(Secret(first + 1, plan.secret.value, plan.next.provider))), first + 2);
      }
    }

    /** A plan at whose fingerprint the rows still are was resolved over these very rows, but
        for a secret that has gone since. */
    lemma PlanHolds(fingerprint: CaptchaRows, plan: CaptchaPlan)
      requires Valid() && (fingerprint, plan) in plans && SameVersions(captcha, fingerprint)
      ensures
        && CaptchaProvenance(AfterDelete(captcha, plan)) && CaptchaProven(AfterDelete(captcha, plan), accepted)
        && CaptchaProvenance(AfterConfig(captcha, plan, versions))
        && CaptchaProven(AfterConfig(captcha, plan, versions), accepted)
        && CaptchaProvenance(AfterSecret(captcha, plan, versions))
        && CaptchaProven(AfterSecret(captcha, plan, versions), accepted)
        && (CaptchaWhole(AfterSecret(captcha, plan, versions))
            <==> !plan.next.enabled || plan.secret.Some? || Readable(captcha.secret).Some?)
        && (captcha == plan.seen ==> CaptchaWhole(AfterSecret(captcha, plan, versions)))
    {
      assert Resolved(fingerprint, plan);
      assert StillSeen(captcha, plan.seen);
      var patch, accepts :| PlanFor(plan.seen, patch, accepts) == Some(plan);
      CommitKeepsProvenance(captcha, plan.seen, patch, accepts, accepted, versions);
    }

    /** Apply an SMTP patch over the rows as they are, inside its transaction. */
    method UpdateSmtp(patch: SmtpPatch, writes: nat) returns (admitted: bool)
      requires Valid()
      modifies this`smtp, this`visible
      ensures Valid() && old(visible) <= visible
      ensures admitted == Admits(old(smtp), patch, env)
      ensures !admitted ==> smtp == old(smtp) && visible == old(visible)
      ensures admitted && writes >= 3 ==> smtp == SmtpAfterPassword(old(smtp), patch, env)
      ensures admitted && writes >= 3 && old(EnvironmentKept(smtp, env)) ==> EnvironmentKept(smtp, env)
    {
      admitted := Admits(smtp, patch, env);
      if !admitted { return; }
      UpdateKeepsProvenance(smtp, patch, env);
      var next := MergeSmtp(StoredSmtp(smtp.config), patch);
      EffectiveIsStable(next, env);
      if writes > 0 {
        PutSmtp(SmtpAfterDelete(smtp, patch));
      }
      if writes > 1 {
        PutSmtp(smtp.(config := Some(next)));
      }
      if writes > 2 && GivesPassword(patch) {
        PutSmtp(smtp.(password := Some(Password(patch.password.value, Effective(next, env)))));
      }
    }
  }

  /** What a row without an override promises of the environment's password is about
      committed updates only. After an update's first write it holds exactly unless the patch
      drops an override while the stored connection is not the environment's; after its
      second exactly unless the patch brings a password for a connection that is not the
      environment's; and after its third always. */
  lemma KeptExactly(rows: SmtpRows, patch: SmtpPatch, env: Environment)
    requires EnvironmentKept(rows, env) && Admits(rows, patch, env)
    ensures EnvironmentKept(SmtpAfterDelete(rows, patch), env)
      <==>
      patch.password.None? || rows.password.None? || env.password.None?
      || MatchesEnvironment(StoredSmtp(rows.config), env)
    ensures EnvironmentKept(SmtpAfterConfig(rows, patch), env)
      <==>
      !GivesPassword(patch) || env.password.None?
      || MatchesEnvironment(MergeSmtp(StoredSmtp(rows.config), patch), env)
    ensures EnvironmentKept(SmtpAfterPassword(rows, patch, env), env)
  {
    var next := MergeSmtp(StoredSmtp(rows.config), patch);
    EffectiveIsStable(next, env);
    assert MatchesEnvironment(StoredSmtp(Some(next)), env) == MatchesEnvironment(next, env);
    if patch.password.None? {
      assert SmtpAfterConfig(rows, patch).password == rows.password;
    } else if GivesPassword(patch) {
      assert SmtpAfterConfig(rows, patch).password.None?;
    }
  }

  /** An update that a store without transactions leaves half done can break that promise
      of the row. The mailer checks the connection before it presents the password, so
      nothing is presented then. */
  lemma InterruptedUpdateForgetsOverride()
    ensures exists rows: SmtpRows, patch: SmtpPatch, env: Environment ::
              SmtpProvenance(rows, env) && EnvironmentKept(rows, env) && Admits(rows, patch, env)
              && !EnvironmentKept(SmtpAfterDelete(rows, patch), env)
              && Presented(SmtpAfterDelete(rows, patch), env).None?
  {
    var env := Environment(Connection(Some("a"), 25, true, None), Some("p"));
    var stored := Smtp(Some("b"), None, None, None, None);
    var rows := SmtpRows(Some(stored), Some(Password(Some("q"), Effective(StoredSmtp(Some(stored)), env))));
    var patch := SmtpPatch(None, None, None, None, None, Some(Some("r")));
    assert Trim("b") == "b";
    assert SmtpProvenance(rows, env) && EnvironmentKept(rows, env) && Admits(rows, patch, env);
    assert !EnvironmentKept(SmtpAfterDelete(rows, patch), env) && Presented(SmtpAfterDelete(rows, patch), env).None?;
  }

  lemma OneCharTrims(s: string)
    requires |s| == 1 && !IsSpace(s[0])
    ensures Trim(s) == s && Str(Some(s)) == Some(s) && Site(Some(s)) == s
  {}

  /** On a store without transactions a fingerprint can miss a secret that was written after
      it was read and removed before the commit: the plan then enables a challenge without a
      secret, which the provenance allows and nobody can pass. */
  method FingerprintMissesRemovedSecret(env: Environment) returns (service: Service)
    ensures fresh(service) && service.Valid() && !CaptchaWhole(service.captcha)
  {
    OneCharTrims("k");
    OneCharTrims("s");
    service := new Service(env);
    var start := service.captcha;
    var p1 := service.PlanCaptcha(start, CaptchaPatch(None, Some(Vendor("v")), Some(Some("k")), Some(Some("s"))),
      _ => true);
    var _ := service.CommitCaptcha(start, p1.value, 3);
    var before := service.captcha.(secret := None);
    var p2 := service.PlanCaptcha(before, CaptchaPatch(Some(true), None, None, None), _ => true);
    var p3 := service.PlanCaptcha(service.captcha, CaptchaPatch(None, None, None, Some(None)), _ => true);
    var _ := service.CommitCaptcha(service.captcha, p3.value, 1);
    assert service.captcha == before;
    var _ := service.CommitCaptcha(before, p2.value, 3);
  }
}
