/** What a wake sends goes only to routers whose key was seen and trusted. */
module WakeTrust {
  import opened Results
  import opened Fingerprint
  import opened Records
  import opened Wol
  import opened Ssh
  import opened Store
  import opened Handlers
  import opened Trust

  ghost predicate KeyJustified(log: seq<Entry>, id: int, site: Site) {
    site.fingerprint.Some? ==> Justified(log, id, site.fingerprint.value)
  }

  /** The row a wake works with has a justified key, if it has one. */
  ghost predicate WakeJustified(log: seq<Entry>, task: Task) {
    task.Busy? ==>
      && (task.pc.WakeCredential? ==> KeyJustified(log, task.pc.row.siteId, task.pc.site))
      && (task.pc.WakeSend? ==> KeyJustified(log, task.pc.row.siteId, task.pc.site))
  }

  ghost predicate WakesJustified(w: World) {
    forall t :: t in w.tasks ==> WakeJustified(w.log, w.tasks[t])
  }

  lemma DeviceCarries(ctx: Ctx, pc: Pc, reply: Reply, env: Env)
    ensures var next := ResumeDevice(ctx, pc, reply, env);
            next.Busy? ==>
              && (next.pc.WakeCredential? ==>
                    && pc.WakeReadSite? && pc.row == next.pc.row
                    && FoundSite(reply) && reply.row.site.value == next.pc.site)
              && (next.pc.WakeSend? ==> pc.WakeCredential? && pc.row == next.pc.row && pc.site == next.pc.site)
  {
  }

  predicate OfWake(pc: Pc) {
    pc.WakeCredential? || pc.WakeSend?
  }

  lemma OthersWakeNothing(ctx: Ctx, pc: Pc, job: Job, reply: Reply, env: Env)
    ensures ResumeSite(ctx, pc, reply, env).Busy? ==> !OfWake(ResumeSite(ctx, pc, reply, env).pc)
    ensures ResumeAccount(ctx, pc, reply, env).Busy? ==> !OfWake(ResumeAccount(ctx, pc, reply, env).pc)
    ensures Enter(ctx, job, env).Busy? ==> !OfWake(Enter(ctx, job, env).pc)
  {
  }

  /** Where the row a wake works with comes from. */
  lemma WakeSources(task: Task, reply: Reply, env: Env)
    ensures var next := Resume(task, reply, env);
            next.Busy? && OfWake(next.pc) ==> task.Busy? && next == ResumeDevice(task.ctx, task.pc, reply, env)
  {
    match task
    case Guard(token, _, job) =>
      if reply.SessionFound? && reply.session.Some? {
        OthersWakeNothing(Ctx(token, reply.session.value), LogoutSession, job, reply, env);
      }
    case Busy(ctx, pc) => OthersWakeNothing(ctx, pc, ViewJob, reply, env);
    case _ =>
  }

  lemma FoundKeyIsJustified(w: World, call: Call, env: Env, id: int)
    requires SitesJustified(w.log, w.shared.store.sites) && call == DbAccess(GetSite(id))
    ensures var reply := Perform(w.shared, call, w.now, env).1;
            FoundSite(reply) ==> KeyJustified(w.log, id, reply.row.site.value)
  {
  }

  lemma KeyStaysJustified(log: seq<Entry>, entry: Entry, id: int, site: Site)
    requires KeyJustified(log, id, site)
    ensures KeyJustified(log + [entry], id, site)
  {
    if site.fingerprint.Some? {
      JustifiedGrows(log, entry, id, site.fingerprint.value);
    }
  }

  lemma WakeStaysJustified(log: seq<Entry>, entry: Entry, task: Task)
    requires WakeJustified(log, task)
    ensures WakeJustified(log + [entry], task)
  {
    if task.Busy? && OfWake(task.pc) {
      KeyStaysJustified(log, entry, task.pc.row.siteId, task.pc.site);
    }
  }

  lemma WakeStep(w: World, t: nat, env: Env)
    requires ProvenanceInv(w) && WakesJustified(w) && Enabled(w, t, env)
    ensures WakesJustified(StepTask(w, t, env))
  {
    var task := w.tasks[t];
    var call := Issue(task);
    var reply := Perform(w.shared, call, w.now, env).1;
    var next := Resume(task, reply, env);
    var entry := Entry(task, call, reply, next);
    assert WakeJustified(w.log, task);
    WakeSources(task, reply, env);
    if next.Busy? && OfWake(next.pc) {
      DeviceCarries(task.ctx, task.pc, reply, env);
      if task.pc.WakeReadSite? {
        FoundKeyIsJustified(w, call, env, task.pc.row.siteId);
      }
      KeyStaysJustified(w.log, entry, next.pc.row.siteId, next.pc.site);
    }
    var w' := StepTask(w, t, env);
    forall u | u in w'.tasks ensures WakeJustified(w'.log, w'.tasks[u]) {
      if u != t {
        WakeStaysJustified(w.log, entry, w.tasks[u]);
      }
    }
  }

  lemma {:induction false} WakesStayJustified(w: World, es: seq<Event>)
    requires Fresh(w)
    ensures WakesJustified(Run(w, es))
  {
    if es != [] {
      var init := es[..|es| - 1];
      var e := es[|es| - 1];
      WakesStayJustified(w, init);
      TrustProvenance(w, init);
      if e.Advance? && Enabled(Run(w, init), e.t, e.env) {
        WakeStep(Run(w, init), e.t, e.env);
      }
    }
  }

  /** Over every interleaved run, for every wake about to be sent and whatever router answers: if
      anything at all is sent, the router showed a key that some session had seen in a successful test
      of this very site and then had stored; and nothing is sent but that login and a beginning of the
      one command. */
  lemma WakesReachOnlyTrustedKeys(w: World, es: seq<Event>, t: nat, peer: Peer)
    requires Fresh(w) && t in Run(w, es).tasks
    requires Run(w, es).tasks[t].Busy? && Run(w, es).tasks[t].pc.WakeSend?
    ensures var pc := Run(w, es).tasks[t].pc;
            var sent := WakeExchange(pc.site, pc.row, pc.credential, peer).1;
            sent != SILENCE ==>
              && peer.hostKey.Some?
              && Justified(Run(w, es).log, pc.row.siteId, PrintFingerprint(peer.hostKey.value))
              && sent.login == Some(Ssh.Login(pc.site.sshUsername, pc.credential))
              && WolCommand(pc.site.lanInterface, pc.row.mac, pc.row.ip).Ok?
              && sent.typed <= WolCommand(pc.site.lanInterface, pc.row.mac, pc.row.ip).value + "\r"
  {
    WakesStayJustified(w, es);
    assert WakeJustified(Run(w, es).log, Run(w, es).tasks[t]);
    var pc := Run(w, es).tasks[t].pc;
    WakeOnlyTrustedPeer(pc.site, pc.row, pc.credential, peer);
  }
}
