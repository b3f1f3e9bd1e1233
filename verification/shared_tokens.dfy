/** The token endpoint as the code runs it for a person's app (routes/token.go,
    routes/refresh.go): one store call after another, with any steps of other requests in
    between, part of a run of the shared-session machine. */
module SharedTokens {
  import opened StoreModel
  import opened Memberships
  import opened SharedMachine
  import opened SharedInvariant
  import opened SharedTheorems
  import Interleaving
  import opened SharedHandlers

  // What the register's answer makes of a token.
  function OutcomeFor(c: Config, client: string, baseline: seq<string>, asked: seq<Membership>, hint: string)
    : Option<Outcome>
  {
    UserScopes(client in c.membersOnly, baseline, asked, hint)
  }

  // grantAuthorizationCode, part by part.

  /** The code is spent, whatever comes of it; by another client than it was issued to,
      in vain. */
  method Spend(svc: Service, r: nat, code: Id, client: string, thumbprint: string, ghost from: Sys)
    returns (mine: bool)
    requires svc.Since(from) && r !in svc.sys.reqs && thumbprint != ""
    modifies svc
    ensures svc.Since(from) && code !in svc.sys.store.codes
    ensures mine <==> code in old(svc.sys).store.codes && old(svc.sys).store.codes[code].value.clientID == client
    ensures if mine
            then At(svc.sys, r, Redeeming) && svc.sys.reqs[r]
                 == Begin(Exchange, Redeeming).(sid := old(svc.sys).store.codes[code].value.sessionID,
                                                client := client, thumbprint := thumbprint)
            else svc.sys.reqs == old(svc.sys).reqs
  {
    var (store, c) := ConsumeAppCode(svc.sys.store, code);
    if c.None? || c.value.clientID != client {
      svc.Do(SpendCode(r, code, client, thumbprint), if c.None? then svc.sys else svc.sys.(store := store), from);
      return false;
    }
    var q := Begin(Exchange, Redeeming).(sid := c.value.sessionID, client := client, thumbprint := thumbprint);
    svc.Do(SpendCode(r, code, client, thumbprint), Goes(svc.sys, r, q, store), from);
    return true;
  }

  /** The session is loaded, if it is there and no check failed. */
  method LoadIt(svc: Service, r: nat, refused: bool, ghost from: Sys) returns (found: bool)
    requires svc.Since(from) && At(svc.sys, r, Redeeming)
    modifies svc
    ensures svc.Since(from) && svc.sys.store == old(svc.sys).store
    ensures found <==> !refused && old(svc.sys).reqs[r].sid in svc.sys.store.sessions
    ensures var q := old(svc.sys).reqs[r];
            if found
            then r in svc.sys.reqs
                 && svc.sys.reqs[r] == q.(pc := SavingGrant, sess := svc.sys.store.sessions[q.sid])
            else r !in svc.sys.reqs
  {
    if refused {
      svc.Do(Refuse(r), Done(svc.sys, r, svc.sys.store), from);
      return false;
    }
    var q := svc.sys.reqs[r];
    var sess := LoadSession(svc.sys.store, q.sid);
    found := sess.Some?;
    svc.Do(LoadForCode(r), if found then Goes(svc.sys, r, q.(pc := SavingGrant, sess := sess.value), svc.sys.store)
                           else Done(svc.sys, r, svc.sys.store), from);
  }

  /** The session's refresh token is kept, for the session's time and this client. */
  method KeepGrant(
    svc: Service, r: nat, asked: seq<Membership>, hint: string, baseline: seq<string>, ghost from: Sys)
    returns (ok: bool)
    requires svc.Since(from) && At(svc.sys, r, SavingGrant)
    modifies svc
    ensures svc.Since(from)
    ensures var q, out := old(svc.sys).reqs[r],
                          OutcomeFor(old(svc.sys).config, old(svc.sys).reqs[r].client, baseline, asked, hint);
            if ok
            then && out.Some? && At(svc.sys, r, SavingBinding)
                 && var p := svc.sys.reqs[r];
                 && p.sid == q.sid && p.client == q.client && p.thumbprint == q.thumbprint
                 && p.token == Token(q.sid, q.client, q.thumbprint, asked, hint, out.value)
                 && p.sess.thumbprint == q.thumbprint && p.sess.clientID == q.client
                 && p.sess.tenant == out.value.tenant && p.sess.refreshKey !in old(svc.sys).past.used
                 && p.sess.refreshKey in svc.sys.store.refresh
                 && svc.sys.store.refresh[p.sess.refreshKey]
                    == Timed(RefreshGrant(q.sid, q.client, false), q.sess.expiresAt)
            else r !in svc.sys.reqs
  {
    var q := svc.sys.reqs[r];
    var key := Draw(svc.sys.past.used);
    var out := OutcomeFor(svc.sys.config, q.client, baseline, asked, hint);
    if out.None? {
      svc.Do(SaveGrant(r, key, asked, hint, baseline), Done(svc.sys, r, svc.sys.store), from);
      return false;
    }
    var token := Token(q.sid, q.client, q.thumbprint, asked, hint, out.value);
    var sess := q.sess.(thumbprint := q.thumbprint, clientID := q.client, tenant := out.value.tenant,
                        refreshKey := key);
    var (store, kept) :=
      SaveRefresh(svc.sys.store, svc.sys.now, key, RefreshGrant(q.sid, q.client, false), q.sess.expiresAt);
    var past := svc.sys.past.(used := svc.sys.past.used + {key}, owner := svc.sys.past.owner[key := q.sid]);
    var t := if kept then Goes(svc.sys, r, q.(pc := SavingBinding, sess := sess, token := token), store)
             else Done(svc.sys, r, svc.sys.store);
    svc.Do(SaveGrant(r, key, asked, hint, baseline), t.(past := past), from);
    return kept;
  }

  /** The session is bound to the key, the client and the tenant, if it is still there. */
  method Bind(svc: Service, r: nat, ghost from: Sys) returns (ok: bool)
    requires svc.Since(from) && At(svc.sys, r, SavingBinding)
    modifies svc
    ensures svc.Since(from) && r !in svc.sys.reqs
    ensures var q := old(svc.sys).reqs[r];
            ok ==> && q.token in svc.sys.past.tokens && q.sid in svc.sys.store.sessions
                   && svc.sys.store.sessions[q.sid] == q.sess && q.sid in svc.sys.past.bound
                   && svc.sys.past.bound[q.sid] == Binding(q.client, q.thumbprint, q.sess.tenant)
  {
    var q := svc.sys.reqs[r];
    var (store, saved) := ReplaceSession(svc.sys.store, svc.sys.now, q.sid, q.sess);
    if !saved {
      svc.Do(SaveBinding(r), Done(svc.sys, r, svc.sys.store), from);
      return false;
    }
    var past := svc.sys.past.(bound := svc.sys.past.bound[q.sid := Binding(q.client, q.thumbprint, q.sess.tenant)],
                              tokens := svc.sys.past.tokens + {q.token});
    svc.Do(SaveBinding(r), Done(svc.sys, r, store).(past := past), from);
    return true;
  }

  /** grantAuthorizationCode. A code is exchanged by the client it was issued to; its
      session is bound to the key that client proved, to the client, and to the tenant
      of the one token it answers. `refused` is that a check of what was sent fails. */
  method ExchangeCode(
    svc: Service, r: nat, code: Id, client: string, thumbprint: string, refused: bool, asked: seq<Membership>,
    hint: string, baseline: seq<string>, others: Schedule) returns (token: Option<Token>)
    requires svc.Since(svc.sys) && r !in svc.sys.reqs && thumbprint != ""
    modifies svc
    ensures svc.Since(old(svc.sys)) && r !in svc.sys.reqs
    ensures token.Some? ==>
              && code in old(svc.sys).store.codes
              && var c := old(svc.sys).store.codes[code].value;
              && var out := OutcomeFor(svc.sys.config, client, baseline, asked, hint);
              && c.clientID == client && out.Some? && token.value in svc.sys.past.tokens
              && token.value == Token(c.sessionID, client, thumbprint, asked, hint, out.value)
              && c.sessionID in svc.sys.store.sessions && c.sessionID in svc.sys.past.bound
              && svc.sys.past.bound[c.sessionID] == Binding(client, thumbprint, out.value.tenant)
              && var sess := svc.sys.store.sessions[c.sessionID];
              && sess.clientID == client && sess.thumbprint == thumbprint && sess.tenant == out.value.tenant
  {
    ghost var from := svc.sys;
    var mine := Spend(svc, r, code, client, thumbprint, from);
    if !mine {
      return None;
    }
    svc.Others(r, others(2), from);
    var found := LoadIt(svc, r, refused, from);
    if !found {
      return None;
    }
    svc.Others(r, others(0), from);
    SameConfig(svc.config, from, svc.sys);
    var ok := KeepGrant(svc, r, asked, hint, baseline, from);
    if !ok {
      return None;
    }
    svc.Others(r, others(1), from);
    var t := svc.sys.reqs[r].token;
    ok := Bind(svc, r, from);
    SameConfig(svc.config, from, svc.sys);
    return if ok then Some(t) else None;
  }

  lemma SameConfig(config: Config, s: Sys, t: Sys)
    requires Follows(config, s, t)
    ensures t.config == s.config == config
  {
    GoesForward(config, s, t);
  }

  // grantRefreshToken, part by part.

  /** Of the session as it is loaded now, bound to that key. */
  method RenewLoaded(
    svc: Service, r: nat, refused: bool, asked: seq<Membership>, baseline: seq<string>, ghost from: Sys)
    returns (token: Option<Token>)
    requires svc.Since(from) && At(svc.sys, r, Renewing)
    modifies svc
    ensures svc.Since(from) && r !in svc.sys.reqs && svc.sys.store == old(svc.sys).store
    ensures var q, s := old(svc.sys).reqs[r], old(svc.sys);
            token.Some? <==>
              && !refused && q.sid in s.store.sessions && s.store.sessions[q.sid].thumbprint != ""
              && s.store.sessions[q.sid].thumbprint == q.thumbprint
              && OutcomeOf(s, q.sid, asked, baseline).Some?
    ensures var q, s := old(svc.sys).reqs[r], old(svc.sys);
            token.Some? ==>
              && token.value in svc.sys.past.tokens
              && token.value == Token(q.sid, q.client, q.thumbprint, asked, s.store.sessions[q.sid].tenant,
                                      OutcomeOf(s, q.sid, asked, baseline).value)
  {
    if refused {
      svc.Do(Refuse(r), Done(svc.sys, r, svc.sys.store), from);
      return None;
    }
    var q := svc.sys.reqs[r];
    var sess := LoadSession(svc.sys.store, q.sid);
    if sess.None? || sess.value.thumbprint == "" || sess.value.thumbprint != q.thumbprint {
      svc.Do(Renew(r, asked, baseline), Done(svc.sys, r, svc.sys.store), from);
      return None;
    }
    var out := OutcomeOf(svc.sys, q.sid, asked, baseline);
    if out.None? {
      svc.Do(Renew(r, asked, baseline), Done(svc.sys, r, svc.sys.store), from);
      return None;
    }
    var t := Token(q.sid, q.client, q.thumbprint, asked, sess.value.tenant, out.value);
    var past := svc.sys.past.(tokens := svc.sys.past.tokens + {t});
    svc.Do(Renew(r, asked, baseline), Done(svc.sys, r, svc.sys.store).(past := past), from);
    return Some(t);
  }

  // For the client and the tenant the stored session is bound to.
  function OutcomeOf(s: Sys, sid: Id, asked: seq<Membership>, baseline: seq<string>): Option<Outcome>
    requires sid in s.store.sessions
  {
    var sess := s.store.sessions[sid];
    OutcomeFor(s.config, sess.clientID, baseline, asked, sess.tenant)
  }

  /** grantRefreshToken. A renewal is answered exactly when the token is kept for this
      client, and the session, as it is loaded, is there, bound to the key the client
      proves, and the register still gives a token for it; and it is for that client
      and key, in the tenant the session has. `refused` is that the register does not
      answer. */
  method RefreshToken(
    svc: Service, r: nat, key: Id, client: string, thumbprint: string, refused: bool, asked: seq<Membership>,
    baseline: seq<string>, others: Schedule) returns (token: Option<Token>, ghost loaded: Sys)
    requires svc.Since(svc.sys) && r !in svc.sys.reqs
    modifies svc
    ensures svc.Since(old(svc.sys)) && r !in svc.sys.reqs && Follows(svc.config, old(svc.sys), loaded)
    ensures token.Some? <==>
            && !refused && key in old(svc.sys).store.refresh
            && var g := old(svc.sys).store.refresh[key].value;
            && g.clientID == client && g.sessionID in loaded.store.sessions
            && var sess := loaded.store.sessions[g.sessionID];
            && sess.thumbprint != "" && sess.thumbprint == thumbprint
            && OutcomeOf(loaded, g.sessionID, asked, baseline).Some?
    ensures token.Some? ==>
              var sid := old(svc.sys).store.refresh[key].value.sessionID;
              && token.value in svc.sys.past.tokens && svc.sys.store == loaded.store
              && token.value == Token(sid, client, thumbprint, asked, loaded.store.sessions[sid].tenant,
                                      OutcomeOf(loaded, sid, asked, baseline).value)
  {
    ghost var from := svc.sys;
    loaded := from;
    var grant := LoadRefresh(svc.sys.store, key);
    if grant.None? || grant.value.clientID != client {
      svc.Do(PresentRefresh(r, key, client, thumbprint), svc.sys, from);
      return None, loaded;
    }
    var q := Begin(Refresh, Renewing).(sid := grant.value.sessionID, client := client, thumbprint := thumbprint);
    svc.Do(PresentRefresh(r, key, client, thumbprint), Goes(svc.sys, r, q, svc.sys.store), from);
    svc.Others(r, others(0), from);
    loaded := svc.sys;
    token := RenewLoaded(svc, r, refused, asked, baseline, from);
  }
}
