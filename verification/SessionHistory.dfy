/** The lazily expiring session table against the history of what was done to it. */
module SessionHistory {
  import opened Results
  import opened Auth

  datatype SessionEvent =
    | Created(token: string, session: Session, at: nat)
    | LookedUp(token: string, at: nat)
    | Removed(token: string, at: nat)

  function Next(sessions: Sessions, e: SessionEvent): Sessions {
    match e
    case Created(token, session, at) => sessions[token := session.(expiresAt := at + SESSION_TTL)]
    case LookedUp(token, at) => AfterLookup(sessions, token, at)
    case Removed(token, _) => Without(sessions, token)
  }

  /** The lazy table: expired entries stay until someone looks them up. */
  function Lazy(es: seq<SessionEvent>): Sessions {
    if es == [] then map[] else Next(Lazy(es[..|es| - 1]), es[|es| - 1])
  }

  function LastTime(es: seq<SessionEvent>): nat {
    if es == [] then 0 else es[|es| - 1].at
  }

  predicate Monotone(es: seq<SessionEvent>) {
    forall i, j :: 0 <= i < j < |es| ==> es[i].at <= es[j].at
  }

  /** Position i created the session the token names, and nothing removed or replaced it later. */
  ghost predicate Names(es: seq<SessionEvent>, token: string, i: nat) {
    && i < |es| && es[i].Created? && es[i].token == token
    && forall j :: i < j < |es| ==> es[j].token != token || es[j].LookedUp?
  }

  /** The eager reading of a history at a time: a token resolves to what the last creation under it
      gave, from that moment until exactly eight hours later, unless it was removed. */
  ghost predicate EagerlyResolves(es: seq<SessionEvent>, token: string, now: nat, session: Session) {
    exists i: nat :: Names(es, token, i) && now < es[i].at + SESSION_TTL
                     && session == es[i].session.(expiresAt := es[i].at + SESSION_TTL)
  }

  /** What the lazy table may hold: the live entry, or one that has already run out. */
  ghost predicate Agrees(es: seq<SessionEvent>, token: string) {
    && (token in Lazy(es) ==>
          exists i: nat :: Names(es, token, i)
              && Lazy(es)[token] == es[i].session.(expiresAt := es[i].at + SESSION_TTL))
    && (token !in Lazy(es) ==> forall i: nat :: Names(es, token, i) ==> es[i].at + SESSION_TTL <= LastTime(es))
  }

  lemma NamesStep(es: seq<SessionEvent>, token: string, i: nat)
    requires es != [] && i < |es| - 1
    ensures Names(es, token, i) <==>
              Names(es[..|es| - 1], token, i) && (es[|es| - 1].token != token || es[|es| - 1].LookedUp?)
  {
    var before := es[..|es| - 1];
    if Names(before, token, i) && (es[|es| - 1].token != token || es[|es| - 1].LookedUp?) {
      forall j | i < j < |es| ensures es[j].token != token || es[j].LookedUp? {
        if j < |es| - 1 { assert before[j] == es[j]; }
      }
    }
    if Names(es, token, i) {
      assert forall j :: i < j < |before| ==> before[j] == es[j];
    }
  }

  lemma NamesUnique(es: seq<SessionEvent>, token: string, i: nat, j: nat)
    requires Names(es, token, i) && Names(es, token, j)
    ensures i == j
  {
  }

  lemma {:induction false} LazyAgrees(es: seq<SessionEvent>, token: string)
    requires Monotone(es)
    ensures Agrees(es, token)
  {
    if es != [] {
      var before := es[..|es| - 1];
      var e := es[|es| - 1];
      assert Monotone(before);
      LazyAgrees(before, token);
      assert LastTime(before) <= e.at;
      forall i: nat | i < |es| - 1
        ensures Names(es, token, i) <==> Names(before, token, i) && (e.token != token || e.LookedUp?)
      {
        NamesStep(es, token, i);
      }
      if e.Created? && e.token == token {
        assert Names(es, token, |es| - 1);
      } else if token in Lazy(before) {
        var i: nat :| Names(before, token, i)
            && Lazy(before)[token] == before[i].session.(expiresAt := before[i].at + SESSION_TTL);
        assert before[i] == es[i];
        forall j: nat | Names(es, token, j) ensures j == i {
          assert j < |es| - 1;
          NamesUnique(before, token, i, j);
        }
      } else {
        forall j: nat | Names(es, token, j) ensures es[j].at + SESSION_TTL <= LastTime(es) {
          assert j < |es| - 1 && before[j] == es[j];
        }
      }
    }
  }

  /** For every history with a monotone clock, the lazy table answers as the eager reading does. */
  lemma LazyRefinesEager(es: seq<SessionEvent>, token: string, now: nat)
    requires Monotone(es) && LastTime(es) <= now
    ensures match LookupAnswer(Lazy(es), token, now)
            case Some(session) => EagerlyResolves(es, token, now, session)
            case None => forall session :: !EagerlyResolves(es, token, now, session)
  {
    LazyAgrees(es, token);
    if token in Lazy(es) {
      var i: nat :| Names(es, token, i) && Lazy(es)[token] == es[i].session.(expiresAt := es[i].at + SESSION_TTL);
      forall j: nat | Names(es, token, j) ensures j == i {
        NamesUnique(es, token, i, j);
      }
    }
  }

  predicate NeverCreatedIn(es: seq<SessionEvent>, token: string) {
    forall i :: 0 <= i < |es| && es[i].Created? ==> es[i].token != token
  }

  /** A token that does not resolve never resolves again, whatever else happens, as long as it is
      not drawn a second time. */
  lemma {:induction false} DeadStaysDead(
    es: seq<SessionEvent>, more: seq<SessionEvent>, token: string, asked: nat, now: nat)
    requires LookupAnswer(Lazy(es), token, asked) == None
    requires NeverCreatedIn(more, token) && Monotone(more)
    requires forall i :: 0 <= i < |more| ==> asked <= more[i].at
    requires asked <= now
    ensures LookupAnswer(Lazy(es + more), token, now) == None
    ensures token in Lazy(es + more) ==> Lazy(es + more)[token].expiresAt <= asked
  {
    if more == [] {
      assert es + more == es;
    } else {
      var init := more[..|more| - 1];
      DeadStaysDead(es, init, token, asked, now);
      assert (es + more)[..|es + more| - 1] == es + init;
    }
  }
}
