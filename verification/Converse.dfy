/**
 Settings whose outbound phase does not fit into a reservation: a run of the whole pipeline in
 which nobody is overdue, no key is flushed, and two invocations hold one key.

 One agent has one grant.  A first invocation reserves the key and is timed out on every attempt;
 while it waits for its last answer its reservation ends, and a second one reserves the key.
 */
module BudgetConverse {
  import opened Common
  import opened InvokePath
  import opened InvokeView
  import opened InvokeRuns
  import opened PathBudget
  import opened RunBudget
  import B = CircuitBreaker
  import E = Envelope
  import F = Refresh
  import G = Grants
  import GrantToken
  import I = Idempotency
  import R = Retry
  import T = RetryBudget
  import Redis
  import W = GrantRuns

  // ---- The deployment ----

  datatype Setting = Setting(signer: GrantToken.Signer, aead: E.Aead, codec: E.Codec, maxRetries: nat, baseDelay: real, pace: Pace)

  ghost predicate Sensible(g: Setting) {
    && GrantToken.Sound(g.signer) && E.SoundAead(g.aead) && E.SoundCodec(g.codec)
    && g.baseDelay >= 0.0 && ValidPace(g.pace)
  }

  function ParamsOf(g: Setting): R.Params {
    R.Params(g.maxRetries, g.baseDelay, true)
  }

  // When the n-th attempt starts, if each before it has timed out.
  function StartOf(g: Setting, n: nat): real {
    T.Times(g.pace.perCall, n) + R.Geometric(g.baseDelay, n)
  }

  function LastAnswer(g: Setting): real {
    T.WorstCase(ParamsOf(g), g.pace.perCall)
  }

  const TOOL := G.Tool("provider", "scope")
  const TOOLS := map["tool" := TOOL]

  function SiteOf(g: Setting): Site {
    var ttl := Truncate(LastAnswer(g)) + 1;
    Site(G.Settings(ttl, 1, 1, "issuer", TOOLS, g.signer),
         Config(false, false, true, TOOLS, g.maxRetries, g.baseDelay, B.Config(g.maxRetries + 2, 0.0)),
         1, 3600, g.aead, g.codec, E.Remote(_ => Ok([])))
  }

  const POLICY := G.Agent("user", {"tool"})
  const RECORD := G.Account("user", "provider", 0.0)
  const NONCE: E.bytes := seq(E.NONCE_SIZE, _ => 0)

  function TokenIn0(g: Setting): string {
    G.TokenFor(SiteOf(g).st, "grant", "agent", "tool", "scope", 0.0)
  }

  function RowOf(g: Setting): G.Row {
    G.NewRow(SiteOf(g).st, "grant", "agent", "account", "tool", "scope", 0.0)
  }

  function BlobOf(g: Setting): E.bytes {
    E.Join(E.Parts([], NONCE, g.aead.seal([], NONCE, g.codec.encode("secret"))))
  }

  function CredIn0(g: Setting): F.Cred {
    F.Cred(BlobOf(g), None, None)
  }

  function RequestOf(g: Setting): Request {
    Request(TokenIn0(g), "tool", Some("key"))
  }

  function FoundIn(g: Setting): Found {
    Found("grant", RowOf(g))
  }

  function KeyOf(g: Setting): string {
    FullKey(RequestOf(g), FoundIn(g))
  }

  lemma SecretOpens(g: Setting)
    requires Sensible(g)
    ensures Opened(DeskOf(SiteOf(g)), BlobOf(g)) == Some("secret")
  {
    E.DecryptInvertsEncrypt(g.aead, g.codec, E.Remote(_ => Ok([])), [], [], NONCE, "secret");
  }

  lemma TokenVerifies(g: Setting, now: real)
    requires Sensible(g) && 0.0 <= now <= LastAnswer(g)
    ensures
      var verdict := GrantToken.VerifyGrant(g.signer, "issuer", TokenIn0(g), now);
      verdict.Ok? && verdict.value.tool == "tool"
    ensures now < RowOf(g).expiresAt
  {
    var ttl := SiteOf(g).st.ttl;
    var claims := GrantToken.Claims("issuer", "agent", "grant", "tool", "scope", Truncate(0.0), Truncate(0.0 + ttl as real));
    assert g.signer.decode(g.signer.encode(claims)) == Some(claims);
  }

  // ---- The grant is issued ----

  function Issuing(stage: W.Stage): W.Request {
    W.Request("agent", "tool", "scope", stage)
  }

  const BACKING := W.Backing(POLICY, "account", RECORD)

  // The tables while the request for the grant is at a stage.
  function AtStage(stage: W.Stage, locks: map<string, nat>): W.State {
    W.State(0.0, G.Tables(map["agent" := POLICY], map["account" := RECORD], map[]), map[], locks, map[0 := Issuing(stage)], map[], map[])
  }

  function Before(): W.State {
    W.State(0.0, G.Tables(map[], map[], map[]), map[], map[], map[], map[], map[])
  }

  function IssueEvents(): seq<W.Event> {
    [W.Connect("account", RECORD), W.EditAgent("agent", POLICY), W.Open(0, "agent", "tool", "scope"),
     W.Requesting(0, W.Lock), W.Requesting(0, W.Bind(Some("account"))), W.Requesting(0, W.ReadClock),
     W.Requesting(0, W.Count), W.Requesting(0, W.Commit("grant"))]
  }

  ghost predicate WorldRun(st: G.Settings, ws: seq<W.State>, es: seq<W.Event>) {
    && |ws| == |es| + 1 && ws[0] == Before()
    && forall k :: 0 <= k < |es| ==> W.Enabled(st, ws[k], es[k]) && ws[k + 1] == W.Step(st, ws[k], es[k])
  }

  lemma Opening(st: G.Settings) returns (ws: seq<W.State>)
    ensures WorldRun(st, ws, IssueEvents()[..3]) && ws[3] == AtStage(W.Asking, map[])
  {
    var es := IssueEvents();
    var w1 := W.Step(st, Before(), es[0]);
    var w2 := W.Step(st, w1, es[1]);
    var w3 := W.Step(st, w2, es[2]);
    ws := [Before(), w1, w2, w3];
  }

  lemma Binding(st: G.Settings)
    requires st.tools == TOOLS
    ensures
      var locked := AtStage(W.Locked(POLICY), map["agent" := 0]);
      && W.Enabled(st, AtStage(W.Asking, map[]), W.Requesting(0, W.Lock))
      && W.Step(st, AtStage(W.Asking, map[]), W.Requesting(0, W.Lock)) == locked
      && W.Enabled(st, locked, W.Requesting(0, W.Bind(Some("account"))))
      && W.Step(st, locked, W.Requesting(0, W.Bind(Some("account")))) == AtStage(W.Bound(BACKING), map["agent" := 0])
  {
  }

  lemma Counting(st: G.Settings)
    requires st.maxActive == 1
    ensures
      var bound := AtStage(W.Bound(BACKING), map["agent" := 0]);
      var timed := AtStage(W.Timed(BACKING, 0.0), map["agent" := 0]);
      && W.Enabled(st, bound, W.Requesting(0, W.ReadClock)) && W.Step(st, bound, W.Requesting(0, W.ReadClock)) == timed
      && W.Enabled(st, timed, W.Requesting(0, W.Count))
      && W.Step(st, timed, W.Requesting(0, W.Count)) == AtStage(W.Counted(BACKING, 0.0), map["agent" := 0])
  {
    assert G.ActiveIds(map[], "agent", "tool", "scope", 0.0) == {};
  }

  // What the invocations see of the tables from then on.
  predicate Backdrop(g: Setting, w: W.State) {
    w.tables.grants == map["grant" := RowOf(g)] && w.tables.accounts == map["account" := RECORD]
  }

  lemma Committing(g: Setting)
    ensures
      var counted := AtStage(W.Counted(BACKING, 0.0), map["agent" := 0]);
      && W.Enabled(SiteOf(g).st, counted, W.Requesting(0, W.Commit("grant")))
      && var w := W.Step(SiteOf(g).st, counted, W.Requesting(0, W.Commit("grant")));
      && Backdrop(g, w) && w.space == map[] && w.now == 0.0
  {
  }

  lemma Snoc(st: G.Settings, ws: seq<W.State>, es: seq<W.Event>, e: W.Event, next: W.State) returns (longer: seq<W.State>)
    requires WorldRun(st, ws, es) && W.Enabled(st, ws[|es|], e) && W.Step(st, ws[|es|], e) == next
    ensures WorldRun(st, longer, es + [e]) && longer[|es| + 1] == next
  {
    longer := ws + [next];
  }

  lemma Bound(st: G.Settings) returns (ws: seq<W.State>)
    requires st.tools == TOOLS
    ensures WorldRun(st, ws, IssueEvents()[..5]) && ws[5] == AtStage(W.Bound(BACKING), map["agent" := 0])
  {
    var es := IssueEvents();
    ws := Opening(st);
    Binding(st);
    assert es[..4] == es[..3] + [es[3]] && es[..5] == es[..4] + [es[4]];
    ws := Snoc(st, ws, es[..3], es[3], AtStage(W.Locked(POLICY), map["agent" := 0]));
    ws := Snoc(st, ws, es[..4], es[4], AtStage(W.Bound(BACKING), map["agent" := 0]));
  }

  lemma Issued(g: Setting) returns (ws: seq<W.State>)
    ensures WorldRun(SiteOf(g).st, ws, IssueEvents())
    ensures Backdrop(g, ws[8]) && ws[8].space == map[] && ws[8].now == 0.0
  {
    var st, es := SiteOf(g).st, IssueEvents();
    ws := Bound(st);
    Counting(st);
    Committing(g);
    var counted := AtStage(W.Counted(BACKING, 0.0), map["agent" := 0]);
    assert es[..6] == es[..5] + [es[5]] && es[..7] == es[..6] + [es[6]] && es == es[..7] + [es[7]];
    ws := Snoc(st, ws, es[..5], es[5], AtStage(W.Timed(BACKING, 0.0), map["agent" := 0]));
    ws := Snoc(st, ws, es[..6], es[6], counted);
    ws := Snoc(st, ws, es[..7], es[7], W.Step(st, counted, es[7]));
  }

  // ---- Runs, one event after another ----

  ghost predicate Fair(g: Setting, ss: seq<State>, es: seq<Event>) {
    Run(SiteOf(g), ss, es) && KeysLeft(ss, es, |es|) && PromptUntil(SiteOf(g), g.pace, ss, |es|)
  }

  lemma Grow(g: Setting, ss: seq<State>, es: seq<Event>, e: Event) returns (ts: seq<State>, fs: seq<Event>)
    requires Fair(g, ss, es) && Enabled(SiteOf(g), ss[|es|], e) && LeavesKeys(ss[|es|], e)
    requires Prompt(SiteOf(g), g.pace, Step(SiteOf(g), ss[|es|], e))
    ensures Fair(g, ts, fs) && |fs| == |es| + 1 && ts[|fs|] == Step(SiteOf(g), ss[|es|], e)
  {
    ts, fs := ss + [Step(SiteOf(g), ss[|es|], e)], es + [e];
  }

  function Quiet(w: W.State): State {
    State(w, map[], map[], [], {}, [], map[])
  }

  lemma {:induction false} Lifted(g: Setting, ws: seq<W.State>, wes: seq<W.Event>, n: nat) returns (ss: seq<State>, es: seq<Event>)
    requires WorldRun(SiteOf(g).st, ws, wes) && n <= |wes|
    requires forall k :: 0 <= k < |wes| ==> !wes[k].Lose? && !wes[k].Foreign?
    ensures Fair(g, ss, es) && |es| == n && ss[n] == Quiet(ws[n])
  {
    if n == 0 {
      ss, es := [Quiet(ws[0])], [];
    } else {
      ss, es := Lifted(g, ws, wes, n - 1);
      ss, es := Grow(g, ss, es, World(wes[n - 1]));
    }
  }

  // ---- One act after another ----

  lemma AllowanceAtLeastZero(g: Setting, p: Phase)
    requires Sensible(g)
    ensures Allowance(SiteOf(g).cfg, g.pace, p) >= 0.0
  {
    if p.Calling? && p.loop.Backoff? {
      DelayAtLeastZero(LoopParams(SiteOf(g).cfg), p.loop.attempt);
    }
  }

  // The invocation has moved to a phase just now, and no other has moved.
  ghost predicate Moved(s: State, t: State, i: nat, q: Phase) {
    && At(s, i) && At(t, i) && t.invs == s.invs[i := t.invs[i]]
    && t.invs[i].req == s.invs[i].req && t.invs[i].phase == q
    && t.invs[i].times != [] && t.invs[i].times[|t.invs[i].times| - 1] == t.world.now == s.world.now
  }

  lemma Acting(g: Setting, ss: seq<State>, es: seq<Event>, i: nat, a: Act) returns (ts: seq<State>, fs: seq<Event>)
    requires Sensible(g) && Fair(g, ss, es) && DoEnabled(SiteOf(g), ss[|es|], i, a)
    ensures Fair(g, ts, fs) && |fs| == |es| + 1 && ts[|fs|] == Step(SiteOf(g), ss[|es|], Do(i, a))
    ensures Moved(ss[|es|], ts[|fs|], i, Next(SiteOf(g).cfg, ss[|es|].invs[i].req, ss[|es|].invs[i].phase, a).value)
  {
    var s := ss[|es|];
    var t := Step(SiteOf(g), s, Do(i, a));
    StepOthers(SiteOf(g), s, Do(i, a), i);
    AllowanceAtLeastZero(g, t.invs[i].phase);
    assert Prompt(SiteOf(g), g.pace, s);
    forall j | At(t, j) ensures PromptOne(SiteOf(g), g.pace, t, j) {
      if j != i {
        assert PromptOne(SiteOf(g), g.pace, s, j);
      }
    }
    ts, fs := Grow(g, ss, es, Do(i, a));
  }

  // An act that only looks: nothing but its invocation changes.
  predicate Looks(a: Act) {
    !a.CheckRate? && !a.ReserveKey? && !a.Write? && !a.Refresh? && !a.Provide? && !a.Audit?
  }

  ghost predicate SameStores(s: State, t: State) {
    t.world == s.world && t.creds == s.creds && t.owners == s.owners && t.calls == s.calls
  }

  lemma Looking(g: Setting, ss: seq<State>, es: seq<Event>, i: nat, a: Act, q: Phase) returns (ts: seq<State>, fs: seq<Event>)
    requires Sensible(g) && Fair(g, ss, es) && At(ss[|es|], i) && Looks(a)
    requires Truthful(DeskOf(SiteOf(g)), ss[|es|].invs[i].req, a, StoresOf(ss[|es|]))
    requires Next(SiteOf(g).cfg, ss[|es|].invs[i].req, ss[|es|].invs[i].phase, a) == Some(q)
    ensures Fair(g, ts, fs) && |fs| == |es| + 1 && Moved(ss[|es|], ts[|fs|], i, q) && SameStores(ss[|es|], ts[|fs|])
  {
    ts, fs := Acting(g, ss, es, i, a);
  }

  // ---- An invocation arrives and reserves the key ----

  ghost predicate Scene(g: Setting, s: State) {
    Backdrop(g, s.world) && s.creds == map["account" := CredIn0(g)] && 0.0 <= s.world.now <= LastAnswer(g)
  }

  lemma Beginning(g: Setting, ss: seq<State>, es: seq<Event>, i: nat) returns (ts: seq<State>, fs: seq<Event>)
    requires Sensible(g) && Fair(g, ss, es) && !At(ss[|es|], i)
    ensures Fair(g, ts, fs) && |fs| == |es| + 1 && SameStores(ss[|es|], ts[|fs|])
    ensures ts[|fs|].invs == ss[|es|].invs[i := Invocation(RequestOf(g), [], Gate(Start), [])]
  {
    var s := ss[|es|];
    var t := Step(SiteOf(g), s, Begin(i, RequestOf(g)));
    assert Prompt(SiteOf(g), g.pace, s);
    forall j | At(t, j) ensures PromptOne(SiteOf(g), g.pace, t, j) {
      if j != i {
        assert PromptOne(SiteOf(g), g.pace, s, j);
      }
    }
    ts, fs := Grow(g, ss, es, Begin(i, RequestOf(g)));
  }

  // The token is good.
  lemma Verifying(g: Setting, ss: seq<State>, es: seq<Event>, i: nat) returns (claims: GrantToken.Claims, ts: seq<State>, fs: seq<Event>)
    requires Sensible(g) && Fair(g, ss, es) && !At(ss[|es|], i) && Scene(g, ss[|es|])
    ensures Fair(g, ts, fs) && SameStores(ss[|es|], ts[|fs|])
    ensures At(ts[|fs|], i) && ts[|fs|].invs == ss[|es|].invs[i := ts[|fs|].invs[i]]
    ensures ts[|fs|].invs[i].req == RequestOf(g) && ts[|fs|].invs[i].phase == Gate(Checked(claims, false))
  {
    var now := ss[|es|].world.now;
    TokenVerifies(g, now);
    ts, fs := Beginning(g, ss, es, i);
    var verdict := GrantToken.VerifyGrant(g.signer, "issuer", TokenIn0(g), now);
    claims := verdict.value;
    ts, fs := Looking(g, ts, fs, i, Verify(verdict), Gate(Checked(claims, false)));
  }

  // From the token to the row: the grant is good.
  lemma Admitting(g: Setting, ss: seq<State>, es: seq<Event>, i: nat) returns (ts: seq<State>, fs: seq<Event>)
    requires Sensible(g) && Fair(g, ss, es) && !At(ss[|es|], i) && Scene(g, ss[|es|])
    ensures Fair(g, ts, fs) && SameStores(ss[|es|], ts[|fs|])
    ensures At(ts[|fs|], i) && ts[|fs|].invs == ss[|es|].invs[i := ts[|fs|].invs[i]]
    ensures ts[|fs|].invs[i].req == RequestOf(g) && ts[|fs|].invs[i].phase == Gate(Admitted(FoundIn(g)))
  {
    var claims;
    claims, ts, fs := Verifying(g, ss, es, i);
    TokenVerifies(g, ss[|es|].world.now);
    ts, fs := Looking(g, ts, fs, i, ReadRow(Some(FoundIn(g))), Gate(Resolved(FoundIn(g))));
    ts, fs := Looking(g, ts, fs, i, ReadClock(ss[|es|].world.now), Gate(Admitted(FoundIn(g))));
  }

  function Marked0(g: Setting, s: State, owner: string): Redis.Space {
    Redis.Put(s.world.space, s.world.now, Redis.IdemName(KeyOf(g)), Redis.Text(I.PendingValue(owner)), I.RESERVATION_TTL_SECONDS)
  }

  ghost predicate Reserved(g: Setting, s: State, t: State, i: nat, owner: string) {
    && t.world == s.world.(space := Marked0(g, s, owner)) && t.creds == s.creds && t.calls == s.calls && t.owners == s.owners + {owner}
    && At(t, i) && t.invs == s.invs[i := t.invs[i]]
    && t.invs[i].req == RequestOf(g) && t.invs[i].phase == Prep(Ctx(FoundIn(g), Some(owner)), Loading)
  }

  lemma Claiming(g: Setting, ss: seq<State>, es: seq<Event>, i: nat, owner: string) returns (ts: seq<State>, fs: seq<Event>)
    requires Sensible(g) && Fair(g, ss, es) && At(ss[|es|], i) && owner !in ss[|es|].owners
    requires ss[|es|].invs[i].req == RequestOf(g) && ss[|es|].invs[i].phase == Gate(Missed(FoundIn(g)))
    requires !Redis.Live(ss[|es|].world.space, ss[|es|].world.now, Redis.IdemName(KeyOf(g)))
    ensures Fair(g, ts, fs) && Reserved(g, ss[|es|], ts[|fs|], i, owner)
  {
    ts, fs := Acting(g, ss, es, i, ReserveKey(KeyOf(g), Some(owner)));
  }

  lemma Missing(g: Setting, ss: seq<State>, es: seq<Event>, i: nat) returns (ts: seq<State>, fs: seq<Event>)
    requires Sensible(g) && Fair(g, ss, es) && !At(ss[|es|], i) && Scene(g, ss[|es|])
    requires !Redis.Live(ss[|es|].world.space, ss[|es|].world.now, Redis.IdemName(KeyOf(g)))
    ensures Fair(g, ts, fs) && SameStores(ss[|es|], ts[|fs|])
    ensures At(ts[|fs|], i) && ts[|fs|].invs == ss[|es|].invs[i := ts[|fs|].invs[i]]
    ensures ts[|fs|].invs[i].req == RequestOf(g) && ts[|fs|].invs[i].phase == Gate(Missed(FoundIn(g)))
  {
    ts, fs := Admitting(g, ss, es, i);
    ts, fs := Looking(g, ts, fs, i, GetKey(KeyOf(g), I.Unseen), Gate(Missed(FoundIn(g))));
  }

  lemma Reserving(g: Setting, ss: seq<State>, es: seq<Event>, i: nat, owner: string) returns (ts: seq<State>, fs: seq<Event>)
    requires Sensible(g) && Fair(g, ss, es) && !At(ss[|es|], i) && Scene(g, ss[|es|]) && owner !in ss[|es|].owners
    requires !Redis.Live(ss[|es|].world.space, ss[|es|].world.now, Redis.IdemName(KeyOf(g)))
    ensures Fair(g, ts, fs) && Reserved(g, ss[|es|], ts[|fs|], i, owner)
  {
    ts, fs := Missing(g, ss, es, i);
    ts, fs := Claiming(g, ts, fs, i, owner);
  }

  // ---- The holder's phase: every attempt times out ----

  function Loaded(g: Setting): Account {
    Account("provider", CredIn0(g))
  }

  function InPhase(g: Setting, owner: string, l: R.Loop): Phase {
    Calling(Ctx(FoundIn(g), Some(owner)), Loaded(g), Stored("secret"), l)
  }

  lemma Preparing(g: Setting, ss: seq<State>, es: seq<Event>, i: nat, owner: string) returns (ts: seq<State>, fs: seq<Event>)
    requires Sensible(g) && Fair(g, ss, es) && At(ss[|es|], i) && Scene(g, ss[|es|])
    requires ss[|es|].invs[i].req == RequestOf(g) && ss[|es|].invs[i].phase == Prep(Ctx(FoundIn(g), Some(owner)), Loading)
    ensures Fair(g, ts, fs) && SameStores(ss[|es|], ts[|fs|])
    ensures At(ts[|fs|], i) && ts[|fs|].invs == ss[|es|].invs[i := ts[|fs|].invs[i]]
    ensures ts[|fs|].invs[i].req == RequestOf(g) && ts[|fs|].invs[i].phase == Prep(Ctx(FoundIn(g), Some(owner)), Confirming(Loaded(g), Stored("secret")))
  {
    var c := Ctx(FoundIn(g), Some(owner));
    SecretOpens(g);
    ts, fs := Looking(g, ss, es, i, LoadAccount("account", Some(Loaded(g))), Prep(c, Decrypting(Loaded(g))));
    ts, fs := Looking(g, ts, fs, i, Decrypt(BlobOf(g), Some("secret")), Prep(c, Confirming(Loaded(g), Stored("secret"))));
  }

  lemma GoingOut(g: Setting, ss: seq<State>, es: seq<Event>, i: nat, owner: string) returns (ts: seq<State>, fs: seq<Event>)
    requires Sensible(g) && Fair(g, ss, es) && At(ss[|es|], i) && Scene(g, ss[|es|])
    requires ss[|es|].invs[i].phase == Prep(Ctx(FoundIn(g), Some(owner)), Confirming(Loaded(g), Stored("secret")))
    ensures Fair(g, ts, fs) && SameStores(ss[|es|], ts[|fs|]) && Moved(ss[|es|], ts[|fs|], i, InPhase(g, owner, R.Ready(0)))
  {
    ts, fs := Looking(g, ss, es, i, RecheckRow("grant", false), InPhase(g, owner, R.Ready(0)));
  }

  // The breaker is closed and has counted n failures.
  predicate Counted(g: Setting, s: State, n: nat) {
    B.Play(SiteOf(g).cfg.breaker, CallsTo(s, "provider")) == B.Fields(B.Closed, n, None, false)
  }

  // The holder alone is there, its loop just now at this point.
  ghost predicate Alone(g: Setting, s: State, l: R.Loop, failures: nat, now: real) {
    && Scene(g, s) && s.world.now == now && s.owners == {"first"} && Counted(g, s, failures)
    && s.world.space == map[Redis.IdemName(KeyOf(g)) := Redis.Entry(Redis.Text(I.PendingValue("first")), Some(I.RESERVATION_TTL_SECONDS as real))]
    && s.invs.Keys == {0} && s.invs[0].req == RequestOf(g) && s.invs[0].phase == InPhase(g, "first", l)
  }

  ghost predicate JustMoved(s: State) {
    At(s, 0) && s.invs[0].times != [] && s.invs[0].times[|s.invs[0].times| - 1] == s.world.now
  }

  lemma PlaySnoc(cfg: B.Config, cs: seq<B.Call>, c: B.Call)
    ensures B.Play(cfg, cs + [c]) == B.After(cfg, B.Play(cfg, cs), c)
  {
    assert (cs + [c])[..|cs|] == cs;
  }

  lemma AskLeads(g: Setting, s: State, n: nat, now: real)
    requires Sensible(g) && Alone(g, s, R.Ready(n), n, now)
    ensures DoEnabled(SiteOf(g), s, 0, Provide("secret", R.Asked(true)))
    ensures Alone(g, Step(SiteOf(g), s, Do(0, Provide("secret", R.Asked(true)))), R.Waiting(n), n, now)
  {
    PlaySnoc(SiteOf(g).cfg.breaker, CallsTo(s, "provider"), B.Ask(now));
  }

  lemma TimeOutLeads(g: Setting, s: State, n: nat, now: real)
    requires Sensible(g) && Alone(g, s, R.Waiting(n), n, now) && n < g.maxRetries
    ensures DoEnabled(SiteOf(g), s, 0, Provide("secret", R.Answered(R.Failed(R.Timeout))))
    ensures Alone(g, Step(SiteOf(g), s, Do(0, Provide("secret", R.Answered(R.Failed(R.Timeout))))), R.Backoff(n), n + 1, now)
  {
    PlaySnoc(SiteOf(g).cfg.breaker, CallsTo(s, "provider"), B.Fail(now, now));
  }

  lemma SleepLeads(g: Setting, s: State, n: nat, now: real)
    requires Sensible(g) && Alone(g, s, R.Backoff(n), n + 1, now)
    ensures DoEnabled(SiteOf(g), s, 0, Provide("secret", R.Slept(R.Delay(ParamsOf(g), n))))
    ensures Alone(g, Step(SiteOf(g), s, Do(0, Provide("secret", R.Slept(R.Delay(ParamsOf(g), n))))), R.Ready(n + 1), n + 1, now)
  {
  }

  lemma Asking(g: Setting, ss: seq<State>, es: seq<Event>, n: nat, now: real) returns (ts: seq<State>, fs: seq<Event>)
    requires Sensible(g) && Fair(g, ss, es) && Alone(g, ss[|es|], R.Ready(n), n, now)
    ensures Fair(g, ts, fs) && Alone(g, ts[|fs|], R.Waiting(n), n, now) && JustMoved(ts[|fs|])
  {
    AskLeads(g, ss[|es|], n, now);
    ts, fs := Acting(g, ss, es, 0, Provide("secret", R.Asked(true)));
  }

  lemma TimingOut(g: Setting, ss: seq<State>, es: seq<Event>, n: nat, now: real) returns (ts: seq<State>, fs: seq<Event>)
    requires Sensible(g) && Fair(g, ss, es) && Alone(g, ss[|es|], R.Waiting(n), n, now) && n < g.maxRetries
    ensures Fair(g, ts, fs) && Alone(g, ts[|fs|], R.Backoff(n), n + 1, now) && JustMoved(ts[|fs|])
  {
    TimeOutLeads(g, ss[|es|], n, now);
    ts, fs := Acting(g, ss, es, 0, Provide("secret", R.Answered(R.Failed(R.Timeout))));
  }

  lemma Sleeping(g: Setting, ss: seq<State>, es: seq<Event>, n: nat, now: real) returns (ts: seq<State>, fs: seq<Event>)
    requires Sensible(g) && Fair(g, ss, es) && Alone(g, ss[|es|], R.Backoff(n), n + 1, now)
    ensures Fair(g, ts, fs) && Alone(g, ts[|fs|], R.Ready(n + 1), n + 1, now) && JustMoved(ts[|fs|])
  {
    SleepLeads(g, ss[|es|], n, now);
    ts, fs := Acting(g, ss, es, 0, Provide("secret", R.Slept(R.Delay(ParamsOf(g), n))));
  }

  // Time passes, no more than the holder may take for its next act.
  lemma Passing(g: Setting, ss: seq<State>, es: seq<Event>, l: R.Loop, failures: nat, now: real, elapsed: real)
    returns (ts: seq<State>, fs: seq<Event>)
    requires Sensible(g) && Fair(g, ss, es) && Alone(g, ss[|es|], l, failures, now) && JustMoved(ss[|es|])
    requires 0.0 <= elapsed <= Allowance(SiteOf(g).cfg, g.pace, InPhase(g, "first", l)) && now + elapsed <= LastAnswer(g)
    ensures Fair(g, ts, fs) && Alone(g, ts[|fs|], l, failures, now + elapsed)
  {
    ts, fs := Grow(g, ss, es, World(W.Tick(elapsed)));
  }

  lemma StartsFit(g: Setting, n: nat)
    requires Sensible(g) && n <= g.maxRetries
    ensures 0.0 <= StartOf(g, n) && StartOf(g, n) + g.pace.perCall <= LastAnswer(g)
    ensures StartOf(g, n) + g.pace.perCall + R.Delay(ParamsOf(g), n) == StartOf(g, n + 1)
    ensures n == g.maxRetries ==> StartOf(g, n) + g.pace.perCall == LastAnswer(g)
    ensures R.Delay(ParamsOf(g), n) >= 0.0
  {
    T.Scaled(g.pace.perCall, n, n);
    T.Scaled(g.pace.perCall, n + 1, 1 + g.maxRetries);
    GeometricGrows(g.baseDelay, n, g.maxRetries);
    R.Doubling(ParamsOf(g), n);
    DelayAtLeastZero(ParamsOf(g), n);
  }

  // Asked, and waiting for the answer until it is due.
  lemma Trying(g: Setting, ss: seq<State>, es: seq<Event>, n: nat) returns (ts: seq<State>, fs: seq<Event>)
    requires Sensible(g) && Fair(g, ss, es) && n <= g.maxRetries && Alone(g, ss[|es|], R.Ready(n), n, StartOf(g, n))
    ensures Fair(g, ts, fs) && Alone(g, ts[|fs|], R.Waiting(n), n, StartOf(g, n) + g.pace.perCall)
  {
    StartsFit(g, n);
    ts, fs := Asking(g, ss, es, n, StartOf(g, n));
    ts, fs := Passing(g, ts, fs, R.Waiting(n), n, StartOf(g, n), g.pace.perCall);
  }

  lemma Retrying(g: Setting, ss: seq<State>, es: seq<Event>, n: nat) returns (ts: seq<State>, fs: seq<Event>)
    requires Sensible(g) && Fair(g, ss, es) && n < g.maxRetries && Alone(g, ss[|es|], R.Waiting(n), n, StartOf(g, n) + g.pace.perCall)
    ensures Fair(g, ts, fs) && Alone(g, ts[|fs|], R.Ready(n + 1), n + 1, StartOf(g, n + 1))
  {
    StartsFit(g, n);
    StartsFit(g, n + 1);
    var now := StartOf(g, n) + g.pace.perCall;
    ts, fs := TimingOut(g, ss, es, n, now);
    ts, fs := Passing(g, ts, fs, R.Backoff(n), n + 1, now, R.Delay(ParamsOf(g), n));
    ts, fs := Sleeping(g, ts, fs, n, StartOf(g, n + 1));
  }

  lemma OneMoreWait(g: Setting, ss: seq<State>, es: seq<Event>, n: nat) returns (ts: seq<State>, fs: seq<Event>)
    requires Sensible(g) && Fair(g, ss, es) && n < g.maxRetries && Alone(g, ss[|es|], R.Waiting(n), n, StartOf(g, n) + g.pace.perCall)
    ensures Fair(g, ts, fs) && Alone(g, ts[|fs|], R.Waiting(n + 1), n + 1, StartOf(g, n + 1) + g.pace.perCall)
  {
    ts, fs := Retrying(g, ss, es, n);
    ts, fs := Trying(g, ts, fs, n + 1);
  }

  lemma {:induction false} AwaitingLast(g: Setting, ss: seq<State>, es: seq<Event>, n: nat) returns (ts: seq<State>, fs: seq<Event>)
    requires Sensible(g) && Fair(g, ss, es) && n <= g.maxRetries && Alone(g, ss[|es|], R.Ready(0), 0, StartOf(g, 0))
    ensures Fair(g, ts, fs) && Alone(g, ts[|fs|], R.Waiting(n), n, StartOf(g, n) + g.pace.perCall)
  {
    if n == 0 {
      ts, fs := Trying(g, ss, es, 0);
    } else {
      ts, fs := AwaitingLast(g, ss, es, n - 1);
      ts, fs := OneMoreWait(g, ts, fs, n - 1);
    }
  }

  // ---- The whole run ----

  lemma Stage(g: Setting) returns (ss: seq<State>, es: seq<Event>)
    requires Sensible(g)
    ensures Fair(g, ss, es)
    ensures
      var s := ss[|es|];
      Scene(g, s) && s.world.now == 0.0 && s.world.space == map[] && s.invs == map[] && s.owners == {} && s.calls == map[]
  {
    var ws := Issued(g);
    ss, es := Lifted(g, ws, IssueEvents(), 8);
    ss, es := Grow(g, ss, es, Deposit("account", CredIn0(g)));
    StartsFit(g, 0);
  }

  lemma FirstHolds(g: Setting) returns (ss: seq<State>, es: seq<Event>)
    requires Sensible(g)
    ensures Fair(g, ss, es) && Alone(g, ss[|es|], R.Ready(0), 0, 0.0)
  {
    ss, es := Stage(g);
    ss, es := Reserving(g, ss, es, 0, "first");
    ss, es := Preparing(g, ss, es, 0, "first");
    ss, es := GoingOut(g, ss, es, 0, "first");
  }

  // Both invocations hold the key.
  ghost predicate BothHold(g: Setting, s: State) {
    HoldsKey(s, 0, KeyOf(g), "first") && HoldsKey(s, 1, KeyOf(g), "second")
  }

  lemma SecondIntrudes(g: Setting, ss: seq<State>, es: seq<Event>) returns (ts: seq<State>, fs: seq<Event>)
    requires Sensible(g) && Fair(g, ss, es) && LastAnswer(g) >= I.RESERVATION_TTL_SECONDS as real
    requires Alone(g, ss[|es|], R.Waiting(g.maxRetries), g.maxRetries, LastAnswer(g))
    ensures Fair(g, ts, fs) && BothHold(g, ts[|fs|])
  {
    ts, fs := Reserving(g, ss, es, 1, "second");
    assert ts[|fs|].invs[0] == ss[|es|].invs[0];
  }

  /**
   The converse: whatever the retries, the base delay and the pace, if one outbound phase at its
   worst lasts as long as a reservation, there is a run of the pipeline with these settings in which no
   key is flushed and nobody is ever overdue, and which ends with two invocations holding one key.
   */
  lemma UnfitSettingsBreakExclusion(g: Setting) returns (ss: seq<State>, es: seq<Event>)
    requires Sensible(g) && T.WorstCase(R.Params(g.maxRetries, g.baseDelay, true), g.pace.perCall) >= I.RESERVATION_TTL_SECONDS as real
    ensures SiteOf(g).cfg.maxRetries == g.maxRetries && SiteOf(g).cfg.baseDelay == g.baseDelay
    ensures Run(SiteOf(g), ss, es) && KeysLeft(ss, es, |es|) && PromptUntil(SiteOf(g), g.pace, ss, |es|)
    ensures BothHold(g, ss[|es|])
  {
    StartsFit(g, g.maxRetries);
    ss, es := FirstHolds(g);
    ss, es := AwaitingLast(g, ss, es, g.maxRetries);
    ss, es := SecondIntrudes(g, ss, es);
  }

  /** The default settings, and a client that times out after 15 s, are such settings. */
  lemma DefaultsBreakExclusion(g: Setting) returns (ss: seq<State>, es: seq<Event>)
    requires Sensible(g) && g.maxRetries == 3 && g.baseDelay == 0.2 && g.pace.perCall == 15.0
    ensures Run(SiteOf(g), ss, es) && KeysLeft(ss, es, |es|) && PromptUntil(SiteOf(g), g.pace, ss, |es|)
    ensures BothHold(g, ss[|es|])
  {
    T.DefaultWorstCase();
    ss, es := UnfitSettingsBreakExclusion(g);
  }
}
