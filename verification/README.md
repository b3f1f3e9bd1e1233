# authbyte's sessions, verified

authbyte signs people in and answers tokens. This project models what it keeps of a
sign-in and what the requests in flight may do to it, and proves what its comments and
documentation promise: that a connection's credential never forks, that a sign-out
reaches the apps it should, that two stores answer alike, that authority only shrinks
from exchange to exchange.

`dafny verify dfyconfig.toml` checks all of it.

## How it is built

**Two protocols as state machines.** Each handler is a request with a program counter
and local variables. One action is one atomic store call; any number of requests are in
flight and interleave in any way; a request may stop for good after any call (`Crash`: a
crash, or a store error), and where the code goes on after a call that failed, so it does
(`Falter`). A `Run` is any sequence of actions from an empty service. `Past` is what has
happened; of it the actions read only which random values were drawn and which refresh
tokens were answered to an app. The machines are values, because their point is what
happens between two calls of one handler.

**The handlers as code.** `connection_handlers.dfy`, `shared_handlers.dfy` and
`shared_tokens.dfy` hold the code exchanges, the refreshes, the sign-in, the silent answer
and the sign-out as methods in the source's own order, each store call changing the service in place, with any steps of
other requests between any two. What such a method does is proved to be part of a run of
its machine (`Since`), so every theorem about runs is about it, and its contract says
what it has done by the time it answers. `handlers.dfy` holds the walks over lists, over
the service's store with nothing in between.

- `connection_*.dfy`: an AI app's connection, from the sign-in to its end
  (routes/aiapp.go, routes/connections.go). The machine, its invariant, the shapes an
  action's effect can have, each action, the invariant kept, the theorems, the handlers;
  what a connection is of, read off what the actions were given (`connection_choices`);
  what a revocation and a look at an index come to (`connection_ends`); and what a note
  of use does to a session's refresh key.
- `shared_*.dfy`: a browser's shared session (routes/shared.go, routes/authorize.go,
  routes/refresh.go, routes/token.go), the same way; who comes to know of a session
  (`shared_reach`), what a revocation ends (`shared_revocations`), and the runs that get
  past its guarantee.

**The store** both use is `StoreModel`, one function a call. `SessionStore.Store` is the
service's store with its scripts, `MemoryStore.Memory` the one in memory; each method of
each is proved to do and answer what `StoreModel` says; and `store_laws` says what that is
without its state.

**The algorithms beside them**: `words`, `store_keys`, `registry`, `exchange`,
`vocabulary`, `memberships`, `provider_set`, `signing_keys`, `shared_ways`,
`sign_in_age`. A loop of the source is a method with a loop, proved against a function or
a property, which the lemmas are about.

### What is assumed

- Random ids, codes, tickets and tokens are new when drawn; a token and its hash are one
  value here, hashes being injective. Session ids never leave the service.
- An app presents a refresh token only after it was answered. (Were one presented before
  its connection is saved, a copy of the session older than the connection could be saved
  over it.)
- The register's answer, and the outcome of every check of what was sent, is arbitrary at
  each call: an action of the environment.
- A store call that fails, and after which its request goes on, has done nothing. One that
  fails and stops its request may have done all of it, or nothing.
- Time is in whole milliseconds and does not go back. An entry is gone from the instant
  its life ends, in the cache and by the service's clock alike. A request of the
  shared-session machine reads the clock once; the code reads it at
  routes/shared.go:155 and again at session/store.go:172.
- A sign-in at a provider is complete no earlier than its flow began.
- Signatures are ideal: a token presented says what its issuer said.
- An AI app's connection and ordinary app sessions are two machines; routes/authorize.go:536-543
  keeps their sessions apart.

### What turned out not to hold

- A sign-out does not reach every sign-in under its shared session: routes/authorize.go:559
  does not look at what `addSharedApp` answered and does not read the record again
  (`SharedEscapes.SignInEscapes`). It reaches exactly those recorded while the shared
  session had not been ended, or whoever ended it had yet to take its list; of the others
  no sign-out ever takes or ends one (`SharedTheorems.SignInsReachedExactly`).
- A silent answer records its session until the end its record had when it was read; a
  sign-in meanwhile may have moved that end, and the list is then cut short
  (session/store.go:50), so that a sign-out after the list's end misses a session still
  live (`SharedEscapes.AnswerEscapes`). Exactly when a recording does that:
  `SharedEscapes.ListsLastUnlessCutShort`.
- `Session.RefreshKey` need not name the newest grant: a note of use (routes/aiapp.go:595-605)
  may put the key of a used token back (`ConnectionNotes.NotePutsOldKeyBack`). Nothing but
  a renewal or such a note moves a connection's key, and a note leaves it as it was
  exactly when the copy it was made on still has it (`ConnectionNotes.KeyMovesOnlySo`,
  `ConnectionNotes.NoteKeepsTheKey`). The other theorems do not rest on it.
- session/store.go:171 says a refused session is not written; the caller's own record has
  its end moved all the same, which the memory store does not do, unless it had that end
  (`StoresAgree.RefusedRecordsDiffer`).
- Claims are not read alike whatever their order by every vocabulary. A token is found
  exactly where some claim carries it, if and only if it holds no space
  (`Vocabulary.TokensAreFoundInClaims`); what the tokens mean is the same for every walk
  of the vocabulary, if and only if those alike but for case have one value
  (`Vocabulary.MeaningsAgreeOnEveryWalk`).
- Two assistants' indexes may be one: an index shares its name with no other if and only
  if neither its tenant nor its key holds a slash (`StoreKeys.OneIndexOfItsName`).

## Actions and their source

Connection machine: `SignIn` routes/authorize.go:536-543 · `SaveTicket`
routes/aiapp.go:91-99 · `SpendTicket`, `LoadForChoice`, `SaveChoice`, `SaveCode`
routes/aiapp.go:208-267 · `SpendCode`, `LoadForCode`, `SaveFirstGrant`, `SaveConnection`,
`IndexConnection` routes/aiapp.go:311-377 · `PresentRefresh`, `PresentInVain`,
`LoadForRenewal`, `Claim`, `SaveNext`, `Mark`, `SaveRenewal` routes/aiapp.go:383-487 ·
`EndsConnection` routes/aiapp.go:491-524 · `PresentRevoke`, `LoadForRevoke`, `DropGrant`
routes/aiapp.go:681-710 and 411-421 · `DeleteEnded`, `DeleteOwnGrant`, `DeleteKeyGrant`,
`RemoveEnded` routes/aiapp.go:530-557 · `Look`, `MissLooked`, `PassLooked`, `EndLooked`,
`AcceptLooked`, `Clean`, `SaveUse` routes/aiapp.go:565-644 and routes/connections.go:126-320 ·
`Falter` routes/aiapp.go:700-704.

Shared-session machine: `BeginSilent`, `Create`, `Check`, `SaveCode` routes/shared.go:149-222 ·
`BeginSignIn`, `Join`, `MakeShared` routes/shared.go:228-272 · `Create`, `Record`
routes/authorize.go:533-562 and routes/shared.go:289-301 · `Drop`, `Take`
session/store.go:369-386 · `PickEnd`, `EndGrant`, `EndSession`, `EndOver`
routes/shared.go:315-347 · `Logout` routes/logout.go:31-90 · `SpendCode`, `LoadForCode`,
`SaveGrant`, `SaveBinding` routes/token.go:235-330 · `PresentRefresh`, `Renew`
routes/token.go:553-599 and routes/refresh.go:41-80 · `PresentRevoke`, `LoadForRevoke`,
`RevokeSession`, `RevokeGrant` routes/refresh.go:111-204 · `Falter` routes/shared.go:187-195
and 289-347.

## Model

| member | source | states |
|---|---|---|
| ConnectionTheorems.CredentialIsLinear | routes/aiapp.go:425-452 | At every moment of every run, a session's tickets, unspent codes, unused refresh tokens and requests between spending one and saving the next are together at most one: a connection never forks into two live chains |
| ConnectionTheorems.RenewsAtMostOnce | routes/aiapp.go:429-452 | No refresh token's renewal is ever answered twice |
| ConnectionTheorems.UsedTokensStayMarked | routes/aiapp.go:461-473 | With no failure, a token that completed a renewal stays marked used while its session lives, or a request in flight is bound to end that session |
| ConnectionTheorems.OnlyUsedTokensAreMarked | routes/aiapp.go:461-473 | What the store keeps as used was claimed for a renewal before: a token never presented is never taken for a used one |
| ConnectionTheorems.ReuseEndsTheConnection | routes/aiapp.go:422-496 | A token marked used and presented again by its client, found or looked for in vain while another presenter has it, ends the connection for good: once no request is in flight and none failed, the session is gone to the end of the run, no token of its chain renews and none is exchanged |
| ConnectionTheorems.NothingAfterTheEnd | routes/aiapp.go:530-557 | Once a session is gone, the renewals of each of its tokens and its exchanges never grow again, whatever requests were in flight |
| ConnectionTheorems.EndedStaysEnded | session/store.go:188-214 | A session ended is never stored again, and what was made of a connection never changes, failures or not |
| ConnectionTheorems.StaleSavesAreHarmless | routes/aiapp.go:595-605 | Whole-record saves of old copies never change a connection's person, app, tenant, assistant, boxes, public name or end: the stored record and every copy still to be saved agree with what was made, and no request on the way to it is left |
| ConnectionTheorems.LiveConnectionIsFound | routes/aiapp.go:614-644 | A connection whose app token was answered is found by its public name in its assistant's index as long as its session is stored, however the index is ordered |
| ConnectionTheorems.FirstNamedIsIt | routes/aiapp.go:621-641 | The first line with a name is the line, where names are one line's each |
| ConnectionTheorems.RunIsRight | routes/aiapp.go:88-710 | The invariant holds at every moment of every run |
| ConnectionKept.InvKept | routes/aiapp.go:311-710 | Every action, a crash anywhere included, keeps the invariant those theorems rest on, and undoes nothing that has happened. (What the actions' own arguments come to is in ConnectionChoices and ConnectionEnds) |
| ConnectionChoices.ConnectionIsOfItsSignIn | routes/authorize.go:536-543 | Over every run, from the sign-in's own arguments: a connection is of its person, app, boxes and lifetime, and no other app holds a code or a refresh token of its session |
| ConnectionChoices.ConnectionIsAsChosen | routes/aiapp.go:247-265 | Over every run, from the choice's own arguments: once saved, the session's code, the stored session, its connection and its index line are of that assistant in that tenant |
| ConnectionChoices.OnlyItsAppConnects | routes/aiapp.go:320-336 | A code is spent by whoever presents it, and begins an exchange exactly when that is the app its session was signed in for |
| ConnectionChoices.OnlyItsAppRenews | routes/aiapp.go:391-407 | A refresh token is found, and a revocation begun, exactly for the app its session was signed in for; for another nothing is done |
| ConnectionEnds.WhatIsToEndEnds | routes/aiapp.go:489-496 | With no failure, a request sent to end a session (a revocation, one with a used token, a sign-out) has ended it for good when it is over |
| ConnectionEnds.RevocationEndsTheConnection | routes/aiapp.go:678-710 | With no failure, a revocation by the token's app ends its connection for good: no token of its chain renews and none of its tokens is exchanged from then on; by another app it does nothing |
| ConnectionEnds.LookDecides | routes/aiapp.go:580-644 | What a look at a line comes to, from what was asked when it began and the session as it is loaded: gone, that line and no other is dropped; not the line's own, in that index, of the person and app asked for, nothing is done; else signed out, or its exchange accepted, its use noted when a minute has passed and nothing else changed |
| ConnectionHandlers.Service.AppCodeExchange | routes/aiapp.go:311-377 | In the code's order, with anything in between: part of a run; a code answers once, to the app it was issued to, connecting a session that was not connected, which is then answered for |
| ConnectionHandlers.Service.AppRefresh | routes/aiapp.go:383-487 | In the code's order, with anything in between: part of a run; only for the app the token was issued to; it renews a token once, that no one had claimed before, answering a new one, drawn by no one, that the session then names; and a connection it ends is the one of the token presented, and gone when it answers |
| ConnectionHandlers.Service.ClaimToken | routes/aiapp.go:438-452 | Claimed, the token had been claimed by no one; found used, the connection is to be ended; gone, the request is refused |
| ConnectionHandlers.Service.EndConnection | routes/aiapp.go:530-557 | When it is done the session and its line are gone, whatever else was done meanwhile |
| ConnectionHandlers.Service.DeleteGrant | routes/aiapp.go:536-545 | The session's own refresh grant goes, then the one the request was sent with; an empty key is passed over |
| ConnectionHandlers.Service.Others | routes/aiapp.go:88-710 | Any steps of other requests: part of a run, and the request itself is left as it was |
| ConnectionNotes.KeyMovesOnlySo | routes/aiapp.go:595-605 | Of every action, only the save of a renewal, or of a note of use whose copy no longer has it, moves a connection's refresh key |
| ConnectionNotes.NoteKeepsTheKey | routes/aiapp.go:595-605 | A note saved leaves the key as it was if and only if its copy still has it |
| ConnectionNotes.NotePutsOldKeyBack | routes/aiapp.go:595-605 | A run in which a note of use, loaded before a renewal and saved after it, puts the used token's key back |
| SharedTheorems.SignOutReachesEveryAnsweredApp | routes/shared.go:187-195 | In any interleaving of answers, replacements and ends with no failure and no list cut short: once a shared session was ended and nothing is in flight, no session answered silently under it, and none of a sign-in recorded before its list was taken, is stored then or ever after |
| SharedTheorems.RecordedInReach | routes/authorize.go:552-561 | As a sign-in's living session is recorded, a sign-out reaches it if and only if its shared session has not been ended, or whoever ended it has yet to take its list |
| SharedTheorems.SignInsReachedExactly | routes/authorize.go:552-561 | So over every run: recorded in reach, it is gone once its shared session was ended and nothing is in flight; else no request ever takes its list, and the only ones that are to end it recorded a later session of its client in its place |
| SharedTheorems.SharedEndsOnce | session/store.go:363-386 | A shared session ended is never stored again and is ended once, of any ends at once |
| SharedTheorems.EndedStaysEnded | session/store.go:293-317 | An app session or a shared session gone is never stored again, and no binding, birth or person recorded changes |
| SharedTheorems.OnePersonPerShared | routes/shared.go:228-283 | A shared session's record, every app session under it and every request about to make one are of the one person it was made for, throughout a run; and it is ended at most once |
| SharedTheorems.OnlyASignInGivesTime | routes/shared.go:155-182 | A session's end is fixed when it is created, one session lifetime after a sign-in the same person completed, and no renewal, exchange, silent answer or join moves it |
| SharedTheorems.SilentAnswerRestsOnAWay | routes/shared.go:155-182 | The way a silent answer rests on is a completed sign-in of that person, still within its lifetime, and no later than the record's end |
| SharedTheorems.SilentSessionEndsWithItsWay | routes/shared.go:92-182 | The session a silent answer made is of one of the ways its record had, by a method the client offers and the request names, no later sign-in fitting the request; the client may be answered so, asked for no new sign-in and no other account, and the person had what it needs; and the session is there only until that way ends, one lifetime after that sign-in |
| SharedTheorems.SessionsMeetMaxAge | routes/oidc.go:179-197 | A session asked for with max_age, made by a sign-in at a provider, by card or silently, has a stored time that is known and, when it was read, was no older than max_age, with 30 seconds of leeway for a provider's clock; and max_age or not, one of a sign-in forced at a provider has a known time, no earlier than its flow's start with that leeway |
| SharedTheorems.SessionsKeepTheirMoment | routes/oidc.go:173-197 | A session a sign-in made states the provider's time where that was stated; else, by card or forced, when the sign-in was complete; else none |
| SharedTheorems.KeysStayGone | session/store.go:237-269 | A refresh grant gone is never kept again under its key |
| SharedTheorems.OneExchange | routes/token.go:305-330 | A session's codes and the requests that may yet make or spend one are at most one, and none once the session is bound |
| SharedTheorems.TokensOfASession | routes/token.go:573-599 | Every token of a session is for the client and key bound at its one code exchange; once a tenant was chosen each carries it and exactly one membership's scopes as the register then answered |
| SharedTheorems.RunIsRight | routes/shared.go:149-347 | The invariant holds at every moment of every run |
| SharedKept.InvKept | routes/shared.go:149-347 | Every action keeps the invariant those theorems rest on, and undoes nothing that has happened. (What a revocation comes to is in SharedRevocations) |
| SharedRevocations.RevocationEnds | routes/refresh.go:161-204 | Over every run with no failure, a revocation by the token's client, once over, loaded the session once: with the session's key, that session, the grant presented and the shared session it came from are gone for good; with another key the load changed nothing; of a session gone already the grant is gone |
| SharedRevocations.OnlyItsClientRevokes | routes/refresh.go:143-159 | Presenting a token ends nothing of itself, and is passed on exactly for the client its session is of |
| SharedRevocations.RevocationReachesEveryAnsweredApp | routes/refresh.go:195-200 | One revocation signs the person out of every app: proved, and nothing in flight, every session its shared session answered silently and every sign-in's a sign-out reaches is gone, unless the shared session had run out of itself; with no failure and no list cut short |
| SharedRevocations.SharedEndsOrRunsOut | session/store.go:363-386 | A shared session gone was ended, or ran out |
| SharedTokens.ExchangeCode | routes/token.go:235-330 | In the code's order, with anything in between: part of a run; a token is answered to the client the code was issued to, and the session is then bound to that client, the key proved and the tenant of what the register answered |
| SharedTokens.RefreshToken | routes/token.go:553-584 | The same; a renewal is answered exactly when the token is this client's, the session as loaded is bound to the key proved, and the register still gives a token in its tenant, which is what it answers |
| SharedTokens.Spend | routes/token.go:271-286 | The code is gone whoever presents it, and is of use exactly to the client it was issued to |
| SharedTokens.KeepGrant | routes/token.go:305-328 | A refresh grant under a key never drawn, for the session, its client and the session's time; none where the register refuses |
| SharedHandlers.Service.AnswerFromShared | routes/shared.go:149-222 | In the code's order, with anything in between: part of a run; a session answered is the shared session's person's and the client's, by the most recent way that fits, and one a sign-out reaches; one not answered is gone when the request goes on; where no way answers nothing is done |
| SharedHandlers.Service.SaveSignedIn | routes/authorize.go:533-562 | The same; its session is the person's and the client's, by the way just signed in, of the moment kept of it, ending one lifetime after; and it was recorded in a sign-out's reach, or noted as out of it |
| SharedHandlers.Service.JoinShared | routes/shared.go:228-272 | The same person's shared session is stored with the way added; else one made anew, under an id never drawn, is stored with that way alone, and the browser's, another person's or ended meanwhile, is gone |
| SharedHandlers.Service.RecordApp | routes/shared.go:289-301 | While its record has not ended the session is listed under its client, and what its client had there before is gone when it is done; once it has, a silent answer's own session is gone and a sign-in goes on |
| SharedHandlers.Service.EndShared | routes/shared.go:315-333 | The record is gone for good when it is done, of two ends at once too |
| SharedHandlers.Service.EndEach | routes/shared.go:328-330 | Every session a request is to end is gone for good when it is done, whatever else was done meanwhile |
| SharedHandlers.Service.EndAppSession | routes/shared.go:337-347 | The session is gone when it is done, and the refresh grant it named when it was loaded |
| SharedHandlers.Service.SignOut | routes/logout.go:31-90 | Part of a run; the browser's shared session is gone for good |
| SharedEscapes.ListsLastUnlessCutShort | session/store.go:48-52 | A recording leaves every live session within its list's life if and only if the end given is no earlier than that of any other client's session listed |
| SharedEscapes.SignInEscapes | routes/authorize.go:533-562 | A run with no failure and no list cut short after which the session of a sign-in outlives the sign-out of its shared session |
| SharedEscapes.AnswerEscapes | routes/shared.go:187-195 | A run with no failure after which a silent answer outlives a sign-out, its list cut short by a record read before a later sign-in |
| SharedWays.SharedRecord.Keep | session/shared.go:55-63 | The loop in place does what the function does: the method's earlier way goes, the new one is last, the end moves to the latest |
| SharedWays.KeepIsLast | session/shared.go:55-63 | One way a method, the new one last, and no other way lost or changed |
| SharedWays.KeepIsInTime | session/shared.go:53-57 | A sign-in after those it has keeps the record's ways in the order of their sign-ins |
| SharedWays.KeepsLastOfEach | session/shared.go:53-57 | Over any sign-ins in order, the record keeps exactly the last by each method, each once and in order |
| SharedWays.KeepEndsWithWays | session/shared.go:55-63 | The record then ends with its latest way if and only if the new way ends no earlier than it did, or a way kept still ends then |
| SharedWays.KeepsInOrder | session/shared.go:53-63 | Over any sign-ins ending in order: distinct methods, the latest last, and the record's end the greatest of its ways' |
| Memberships.ChooseMembership | routes/token.go:134-155 | The loops choose what the function of ChoiceIsThePersons and OneMembershipOrNone does, and list every tenant when the choice is the person's |
| Memberships.ChoiceIsThePersons | routes/token.go:129-154 | Never a guess: with membership required, the outcome has a choice if and only if there are several memberships and no tenant was named, and is then no scopes, no tenant and every tenant in order; with one it is that one; a client that needs none gets its baseline and no tenant |
| Memberships.OneMembershipOrNone | routes/token.go:85-110 | A token is minted for one membership whole, the first in the tenant named where one was; refused exactly when there is none, or none in the tenant named |
| SessionStore.Store.SaveFlow | session/store.go:131-133 | Keeps the flow for its lifetime |
| SessionStore.Store.ConsumeFlow | session/store.go:136-138 | Answers and removes it in one step |
| SessionStore.Store.SaveAppCode | session/store.go:141-143 | Keeps the code for its lifetime |
| SessionStore.Store.ConsumeAppCode | session/store.go:147-149 | Answers and removes it in one step |
| SessionStore.Store.CreateSession | session/store.go:171-183 | Stores it unless one with that id lives; the caller's record gets its end either way |
| SessionStore.Store.ReplaceSession | session/store.go:188-214 | Writes only over a session still there, and only a copy that has not ended |
| SessionStore.Store.LoadSession | session/store.go:217-229 | Answers what is live |
| SessionStore.Store.DeleteSession | session/store.go:232-234 | Removes it, and nothing else |
| SessionStore.Store.SaveRefresh | session/store.go:237-244 | Keeps the grant until the end given, if that is to come |
| SessionStore.Store.LoadRefresh | session/store.go:247-257 | Answers what is live |
| SessionStore.Store.TakeRefresh | session/store.go:262-264 | Answers and removes it in one step |
| SessionStore.Store.DeleteRefresh | session/store.go:267-269 | Removes it, and nothing else |
| SessionStore.Store.CreateShared | session/store.go:273-288 | Stores it unless its end has come or one with that id lives, and says which |
| SessionStore.Store.ReplaceShared | session/store.go:293-317 | Writes only over one still there, and only one that has not ended |
| SessionStore.Store.LoadShared | session/store.go:320-330 | Answers what is live |
| SessionStore.Store.PutSharedApp | session/store.go:335-350 | Lists the session, answers the client's earlier one, and sets the list's end, earlier or later |
| SessionStore.Store.SharedApps | session/store.go:354-361 | Answers the living list |
| SessionStore.Store.EndShared | session/store.go:369-386 | The record goes, then its list, which is answered; one already gone ends nothing |
| SessionStore.Store.AddConnection | session/store.go:398-413 | Adds the line with its end; the key's own life is never shortened, so it outlives every line |
| SessionStore.Store.Connections | session/store.go:417-438 | Answers the lines that have not ended, dropping the rest and an index left empty, which shows nothing |
| SessionStore.Store.RemoveConnection | session/store.go:441-448 | Removes the line, and nothing else |
| SessionStore.Store.SetClock | session/store.go:69 | As time passes exactly what has ended is gone |
| MemoryStore.Put | session/sessiontest/memory.go:77-93 | Keeps the value until its time has run out |
| MemoryStore.Get | session/sessiontest/memory.go:95-112 | Answers what lives; drops what has ended, or what was asked for with deletion |
| MemoryStore.Memory.CreateSession | session/sessiontest/memory.go:140-156 | As the service's store, but the caller's record gets its end only when stored |
| MemoryStore.Memory.ReplaceSession | session/sessiontest/memory.go:158-175 | As the service's store |
| MemoryStore.Memory.PutSharedApp | session/sessiontest/memory.go:292-316 | As the service's store |
| MemoryStore.Memory.EndShared | session/sessiontest/memory.go:327-346 | As the service's store, both halves in one step |
| MemoryStore.Memory.AddConnection | session/sessiontest/memory.go:360-381 | As the service's store |
| MemoryStore.Memory.Connections | session/sessiontest/memory.go:383-400 | As the service's store, what has ended passed over, not dropped |
| MemoryStore.Memory.RemoveConnection | session/sessiontest/memory.go:402-418 | As the service's store, an index left empty kept |
| MemoryStore.Memory.SaveFlow | session/sessiontest/memory.go:114-116 | As the service's store |
| MemoryStore.Memory.ConsumeFlow | session/sessiontest/memory.go:118-125 | As the service's store |
| MemoryStore.Memory.SaveAppCode | session/sessiontest/memory.go:127-129 | As the service's store |
| MemoryStore.Memory.ConsumeAppCode | session/sessiontest/memory.go:131-138 | As the service's store |
| MemoryStore.Memory.LoadSession | session/sessiontest/memory.go:177-191 | As the service's store |
| MemoryStore.Memory.DeleteSession | session/sessiontest/memory.go:193-199 | As the service's store |
| MemoryStore.Memory.SaveRefresh | session/sessiontest/memory.go:201-210 | As the service's store |
| MemoryStore.Memory.LoadRefresh | session/sessiontest/memory.go:212-219 | As the service's store |
| MemoryStore.Memory.TakeRefresh | session/sessiontest/memory.go:221-228 | As the service's store |
| MemoryStore.Memory.DeleteRefresh | session/sessiontest/memory.go:230-236 | As the service's store |
| MemoryStore.Memory.CreateShared | session/sessiontest/memory.go:238-256 | As the service's store |
| MemoryStore.Memory.ReplaceShared | session/sessiontest/memory.go:258-274 | As the service's store |
| MemoryStore.Memory.LoadShared | session/sessiontest/memory.go:276-290 | As the service's store |
| MemoryStore.Memory.SharedApps | session/sessiontest/memory.go:318-325 | As the service's store |
| MemoryStore.Memory.SetClock | session/sessiontest/memory.go:39-43 | As time passes exactly what has ended is gone |
| StoresAgree.SameAnswers | session/sessiontest/memory.go:1-4 | For every sequence of calls with lifetimes that last and a clock that does not go back, both stores give the same answers, those of the model, connection lists as sets |
| StoresAgree.Real | session/store.go:131-448 | Any one call of the service's store |
| StoresAgree.Kept | session/sessiontest/memory.go:114-418 | Any one call of the memory store |
| StoresAgree.IndexAnswersWhatWasAdded | session/store.go:34-43 | After any calls an index answers exactly the connections added, not removed since, whose end has not come |
| StoresAgree.RefusedRecordsDiffer | session/store.go:171-183 | The caller's record after a refused creation is the same in both stores if and only if it already had that end |
| StoreLaws.LastKeptIsHeld | session/store.go:131-330 | After any calls, of any flow, code, session, grant or shared session a store holds what was kept of it last until its time comes, and nothing of what was consumed, taken, deleted or ended since; a session or record is written over only while one lives, and made only where none does |
| StoreViews.AddLine | session/store.go:34-37 | Adding to an index, over a key that has ended or not, shows exactly that line more |
| StoreViews.DropEnded | session/store.go:42-43 | Dropping what has ended, and an index left empty, shows nothing |
| StoreKeys.KindsKeptApart | session/sessiontest/memory.go:114-360 | No key of one kind of entry is a key of another, for any ids |
| StoreKeys.IndexesKeptApart | session/store.go:389-391 | Two indexes have one name only where a tenant holds a slash |
| StoreKeys.IndexesConfused | session/store.go:389-391 | Two that have: a tenant with a slash, and another with its rest |
| StoreKeys.OneIndexOfItsName | session/store.go:389-391 | An index shares its name with no other if and only if neither its tenant nor its key holds a slash |
| StoreKeys.MembersReadBack | session/store.go:393-395 | A line read back is the one written if and only if its public name holds no space |
| Handlers.EndConnection | routes/aiapp.go:530-557 | Ends the session, its own and the named refresh grants and its line, and nothing else |
| Handlers.EndedIsGone | routes/aiapp.go:530-553 | An ended connection's session, own grant, named grants and line are gone, an empty key passed over, and all else stands |
| Handlers.FindConnection | routes/aiapp.go:614-644 | Finds the session if it is there and has that name, tenant and assistant; nothing only where no line has the name or one that has it does not fit; drops only a line whose session is gone |
| Handlers.EndAssistantConnections | routes/connections.go:294-320 | Every app connected as the assistant is signed out, where connections have names of their own; no other session, no other refresh grant's content and no other index is touched |
| Handlers.EndAppSession | routes/shared.go:337-347 | An app session and its refresh grant are ended, and nothing else |
| Handlers.EndShared | routes/shared.go:315-333 | The record, its list, every session listed and its refresh grant are gone, all else stands; one already gone ends nothing |
| Words.PrintsAndParses | registry/registry.go:775-777 | A list survives joining by spaces and splitting again if and only if all it holds are words |
| Words.CutsBack | registry/registry.go:402 | Cutting gives back what was put together if and only if the first part lacks the separator |
| Registry.ScopesArePlain | registry/registry.go:401-415 | No scope is both a box and a level, and each is one word |
| Registry.LevelsAreHalves | registry/registry.go:411-417 | Two halves about the first colon are a level if and only if neither is empty, there is no other colon, and no slash or space |
| Registry.BoxesAreHalves | registry/registry.go:401-407 | They are a box if and only if the first has a slash inside it and the second is not empty, with no space |
| Registry.ScopeListsSurvive | issuer/issuer.go:141 | Any list of valid scopes survives a token's scope string |
| Registry.ValidateClient | registry/registry.go:246-285 | Accepts exactly rows whose grants hold boxes and levels only, one an audience, with assistant levels among their levels |
| Registry.ValidateSignInClient | registry/registry.go:371-397 | Accepts exactly rows whose scopes are boxes, some for an AI app and none for another |
| Registry.Load | registry/registry.go:163-244 | Loads exactly documents with every row right, every id one row's, and no sign-in client's id an audience; and keeps each row, right, under its id |
| Registry.AllowedScopes | registry/registry.go:545-583 | The loops answer what the function does, refusals apart |
| Registry.AssistantLevels | registry/registry.go:588-601 | The loop answers the levels of LevelsExactly |
| Registry.LevelsExactly | registry/registry.go:585-601 | A level is an assistant's if and only if the client is enabled and its grant toward that audience names it for one; and it is a level of that grant |
| Registry.GivenExactly | registry/registry.go:542-583 | A client is given exactly its whole grant toward the audience when it asks for nothing, what it asked for when all of it is in that grant, and else is refused |
| Registry.IdsOpenNothing | registry/registry.go:208-241 | Of a document loaded, no id is a service's and a sign-in client's, no sign-in client's id is an audience of anything, no service acts from an audience with no name, and none is enabled with no secret |
| Registry.MayActFrom | registry/registry.go:607-620 | True exactly when enabled and one audience is the client itself or listed |
| Registry.NoMoreThanGranted | registry/registry.go:542-583 | A client gets scopes of its grant toward that audience alone, and what it asked for whole or nothing; named levels are levels |
| Exchange.IntersectScopes | routes/token.go:160-174 | What both lists hold, in the order of the first |
| Exchange.BothInOrder | routes/token.go:160-174 | In the order of the first: of two lists one after the other, what is kept of the one comes before what is kept of the other |
| Exchange.ReadAsk | routes/aiapp.go:57-70 | The loop answers what the function does |
| Exchange.AsksOfItsRow | routes/aiapp.go:47-73 | An ask is refused exactly when it names something not of the row; granted, it is of every box named and no other, each once, or of the whole row when none is named |
| Exchange.NarrowForAssistant | routes/aiapp.go:722-732 | Keeps exactly the boxes held and the levels named, in order |
| Exchange.NarrowedInOrder | routes/aiapp.go:722-732 | And so it narrows, part by part |
| Exchange.GrantTokenExchange | routes/token.go:692-758 | Refuses and grants as the function does |
| Exchange.AppTokenHoldsItsBoxes | routes/aiapp.go:504-524 | An app's token is of the connection's person and tenant, for the app's one audience, acted for by its assistant; it carries exactly the boxes asked for that its row and the assistant hold, and no level |
| Exchange.AuthorityShrinks | routes/token.go:723-758 | Over a chain of exchanges of any length from an app's token: boxes among the app token's, every level named for an assistant by a grant of the last client toward the last audience, subject, tenant, way and assurance unchanged, actors the clients in order with the assistant innermost; and the app's own token was exchanged while live |
| Exchange.EachWasSentThat | routes/token.go:694-716 | Each client of a chain is, or lists, the audience of the token it was sent; one sent a service's token acts only for a tenant's |
| Exchange.GrantedExactly | routes/token.go:694-741 | An exchange is granted if and only if a service subject names a tenant, the client is or lists an audience of the token, an app's own token is live, and its grant toward the audience holds all it asks |
| Exchange.CarriesExactly | routes/token.go:742-758 | What it answers says what the token did but for audience, client and latest actor, and carries exactly the scopes given, for an assistant the boxes held and the levels its grant names |
| Vocabulary.IndexPolicy | identity/identity.go:249-269 | However the vocabulary is walked, the tokens come lower-cased, longest first and then alphabetically |
| Vocabulary.Insert | identity/identity.go:260-266 | A token put in its place among tokens in order: the same tokens and it, in order |
| Vocabulary.MatchPolicy | identity/identity.go:350-363 | The first token found in the one joined line decides |
| Vocabulary.MethodFor | identity/identity.go:325-338 | Names a method exactly when the value says something and holds a token |
| Vocabulary.ReadsAsMeant | identity/identity.go:314-319 | For tokens without spaces, of one value where they differ only in case, the result is the value of the longest, then alphabetically first, token that some claim carries, else the default |
| Vocabulary.OneReading | identity/identity.go:300-313 | That is one value, the same whichever claim carries a token and in whatever order |
| Vocabulary.HoldingIsBefore | identity/identity.go:259-266 | A token that holds another is tried before it |
| Vocabulary.MostSpecificIsRead | identity/identity.go:259-266 | What is read is the most specific token: no token carried holds it |
| Vocabulary.Interpret | identity/identity.go:314-319 | The code reads so for every such vocabulary, walk and claims |
| Vocabulary.TokensAreFoundInClaims | identity/identity.go:350-363 | A token is found exactly where some claim carries it, whatever the claims, if and only if it holds no space |
| Vocabulary.MeaningsAgreeOnEveryWalk | identity/identity.go:249-257 | The tokens mean the same however the vocabulary is walked if and only if those alike but for case have one value |
| Vocabulary.SpacesReachAcross | identity/identity.go:350-363 | A token with a space is found across two claims, in neither |
| Vocabulary.CaseAloneIsNotEnough | identity/identity.go:249-257 | Of two tokens alike but for case, the meaning depends on the walk |
| ProviderSet.NewSet | upstream/set.go:72-136 | Makes a set exactly of acceptable entries, with the keys and the methods' owners as stated |
| ProviderSet.ReadEntries | upstream/set.go:80-117 | Goes through exactly when every entry is right and apart from those before it; each method is then one entry's, and the holder is found |
| ProviderSet.AssignKeys | upstream/set.go:119-133 | Goes through exactly when every entry has something to keep its people under, and not what the card's are |
| ProviderSet.KeysTellPeopleApart | upstream/set.go:115-133 | Exactly one entry holds the stored sign-ins and keeps its people under no name, with those that share its identifier; any other under its own; so two keep people under one key if and only if they are one entry or share an identifier; no key is the card's |
| ProviderSet.PathsTellEntriesApart | upstream/set.go:84-95 | A return path leads to one entry and a name names one, and each has a method |
| ProviderSet.MethodsTellEntriesApart | upstream/set.go:96-104 | Each method belongs to exactly one entry, and the card's to none |
| SigningKeys.Manager.MaybeRotate | keys/keys.go:139-168 | A differing key becomes active, the earlier stays trusted, and nothing else changes |
| SigningKeys.Manager.JWKS | keys/keys.go:104-115 | The published ids are exactly those ever active |
| SigningKeys.Manager.PublicKeyByKID | keys/keys.go:183-197 | An id answers a key ever active with it, if there is one |
| SigningKeys.AfterRotations | keys/keys.go:134-197 | Over any reloads, going back included, every key ever active answers to its own id and no other does, and only those are published |
| SignInAge.ReadSignInAsk | routes/oidc.go:92-144 | Refuses exactly what can never be met; any max_age asks for a sign-in made anew |
| SignInAge.MomentExactly | routes/oidc.go:179-197 | For every request: refused if and only if the provider states a time, and that is before a forced request, or longer ago than the max_age, each with the leeway; the moment kept is the provider's, else the completion's of a forced sign-in, else unknown |
| SignInAge.SharedWay | routes/shared.go:92-144 | The backward walk answers exactly when a way may answer, with the most recent that fits; and says why not: not asked for, no way still there that is offered and named, all of those too old, no identity, or no membership |

## Left out

- HTTP, cookies, pages, languages and the card's script: a request is its decoded parameters.
- Cryptography and encodings: signing, SHA-256, PKCE, DPoP proofs, PEM, JSON, base64. Their outcome is a refusal or not.
- The register, the providers' own calls, the Web eID engine, PostgreSQL: arbitrary answers, or a failure at a step.
- Exchange.GrantTokenExchange: whether a subject is a service (Claims.IsService lives in a library), and whether the connection a token names is live (the connection machine says when), are parameters of each exchange.
- The names, certificates and levels of assurance a session carries, secrets of shared sessions, and redirect addresses: they decide nothing that is proved here.
- Registry.ValidateSignInClient: URL address checks, claims and the client's type; `restOk` stands for them.
- Registry.Load: the same of each row.
- SessionStore.Store.SaveFlow: lifetimes of zero or less, of which the cache's client decides, and which no caller gives: they are constants, or a configured time that must be positive (config.go:152), or what is left of a way that has not ended.
- SessionStore.Store.SaveAppCode: the same.
- SessionStore.Store.CreateSession: the same.
- MemoryStore.Put: the same; an entry kept so would never end here.
- MemoryStore.Memory.SaveFlow: the same.
- MemoryStore.Memory.SaveAppCode: the same.
- MemoryStore.Memory.CreateSession: the same.
- MemoryStore.Memory.SetClock: what a clock set back shows is said only of the entries kept, not by the model.
- The memory store's one map with prefixed keys is seven maps here; why no two meet says StoreKeys.KindsKeptApart.
- Sub-millisecond rounding of lifetimes, and the order of connection lists.
- The order lists of connections are shown in, and names of apps shown with them.
- Audit events, logs, configuration, secret resolution, demo serving.
- identity/catalog.go, the login-method table and accessors: easy members.
- The rest of the handlers as code (the revocations, the assistant page, an exchange's check of its connection): actions of the two machines only. A failure part way is an action of the machines, not of the methods.
- ConnectionTheorems.LiveConnectionIsFound: of a connection whose app token was answered; one that failed before its line was written is not in its index, and no app holds its tokens.
- SharedTheorems.SignOutReachesEveryAnsweredApp: supposes no failure and no list cut short; SharedEscapes shows what happens without, and when a list is cut.
- SharedRevocations.RevocationEnds: supposes no failure; a store call that fails stops a revocation where it is, and the app is told to try again.
- ConnectionEnds.RevocationEndsTheConnection: the same.
- SharedTheorems.OnlyASignInGivesTime: by one reading of the clock a request; the code's second reading can add the time between the two.
- Vocabulary.Interpret: one vocabulary; the code reads two the same way, from the same claims.
