/** What the agent's operations promise, proved about the step functions of
    `CapeProtocol` (and so, through the methods' postconditions, about the
    `CapeAgent` class). */
module CapeProperties {
  import opened Values
  import opened CapeProtocol
  import Entity

  // ----- the XMPP session -----

  /** The requests `connect()` makes on a given state: none unless the
      service is registered and both credentials are stored, and then a
      disconnect followed by one connect with the stored account. */
  function ConnectEvents(p: Platform, id: string, s: Store): seq<Event> {
    if p.xmppRegistered && Username(s).Some? && Password(s).Some?
    then [XmppDisconnect(id), XmppConnect(id, Username(s).value, Password(s).value, Resource(s))]
    else []
  }

  /** `connect()` checks the service, then the username, then the password;
      it makes requests only when all three are there, and its outcome is
      that of the connect request alone. It never changes the state or sends
      a remote call. */
  lemma ConnectChecksInOrder(p: Platform, id: string, w: World)
    ensures ConnectStep(p, id, w).1 == w.(events := w.events + ConnectEvents(p, id, w.store))
    ensures !p.xmppRegistered ==> ConnectStep(p, id, w).0 == Fail(NoXmppService)
    ensures p.xmppRegistered && Username(w.store).None? ==> ConnectStep(p, id, w).0 == Fail(NoUsernameSet)
    ensures p.xmppRegistered && Username(w.store).Some? && Password(w.store).None? ==>
              ConnectStep(p, id, w).0 == Fail(NoPasswordSet(Username(w.store).value))
    ensures p.xmppRegistered && Username(w.store).Some? && Password(w.store).Some? ==>
              (ConnectStep(p, id, w).0 == Pass <==>
               p.transportOk(XmppConnect(id, Username(w.store).value, Password(w.store).value, Resource(w.store))))
  {
  }

  /** `disconnect()` fails without a registered service and then makes no
      request; otherwise it makes exactly one disconnect request. */
  lemma DisconnectNeedsService(p: Platform, id: string, w: World)
    ensures !p.xmppRegistered ==> DisconnectStep(p, id, w) == (Fail(NoXmppService), w)
    ensures p.xmppRegistered ==>
              DisconnectStep(p, id, w).1 == w.(events := w.events + [XmppDisconnect(id)]) &&
              (DisconnectStep(p, id, w).0 == Pass <==> p.transportOk(XmppDisconnect(id)))
  {
  }

  // ----- changeAccount, setAccount, removeAccount -----

  /** A pair that fails verification makes `changeAccount` throw and change
      nothing: no state key, no transport request, no remote call. */
  lemma ChangeAccountMismatchChangesNothing(p: Platform, id: string, w: World,
                                            oldUsername: JString, oldPassword: JString,
                                            newUsername: JString, newPassword: JString,
                                            newResource: JString)
    requires !Verify(w.store, newUsername, newPassword)
    ensures ChangeAccountStep(p, id, w, oldUsername, oldPassword, newUsername, newPassword, newResource)
            == (Fail(AccountMismatch), w)
  {
  }

  /** `changeAccount` throws `AccountMismatch` exactly when the NEW pair fails
      verification, whatever old pair is given. */
  lemma ChangeAccountVerifiesNewPair(p: Platform, id: string, w: World,
                                     oldUsername: JString, oldPassword: JString,
                                     newUsername: JString, newPassword: JString,
                                     newResource: JString)
    ensures (ChangeAccountStep(p, id, w, oldUsername, oldPassword, newUsername, newPassword, newResource).0
             == Fail(AccountMismatch)) <==> !Verify(w.store, newUsername, newPassword)
  {
  }

  /** When both old fields are given, the disconnect comes first and its
      failure propagates before anything is stored. */
  lemma ChangeAccountDisconnectFailureAborts(p: Platform, id: string, w: World,
                                             oldUsername: JString, oldPassword: JString,
                                             newUsername: JString, newPassword: JString,
                                             newResource: JString)
    requires Verify(w.store, newUsername, newPassword)
    requires oldUsername.Some? && oldPassword.Some?
    requires !(p.xmppRegistered && p.transportOk(XmppDisconnect(id)))
    ensures var (o, w') := ChangeAccountStep(p, id, w, oldUsername, oldPassword, newUsername, newPassword, newResource);
            o == DisconnectStep(p, id, w).0 && o.Fail? &&
            w'.store == w.store && w'.calls == w.calls &&
            w'.events == w.events + (if p.xmppRegistered then [XmppDisconnect(id)] else [])
  {
  }

  /** Once verification passes (and the leading disconnect, if any, went
      through), the new account is stored BEFORE `connect()` runs, so it stays
      stored whatever `connect()` returns; the requests made are the leading
      disconnect, only when both old fields are given, then those of
      `connect()` on the new state. */
  lemma ChangeAccountStoresBeforeConnect(p: Platform, id: string, w: World,
                                         oldUsername: JString, oldPassword: JString,
                                         newUsername: JString, newPassword: JString,
                                         newResource: JString)
    requires Verify(w.store, newUsername, newPassword)
    requires oldUsername.Some? && oldPassword.Some? ==> p.xmppRegistered && p.transportOk(XmppDisconnect(id))
    ensures var (o, w') := ChangeAccountStep(p, id, w, oldUsername, oldPassword, newUsername, newPassword, newResource);
            var s' := StoreAccount(w.store, newUsername, newPassword, newResource);
            w'.store == s' &&
            Username(w'.store) == newUsername && Password(w'.store) == newPassword && Resource(w'.store) == newResource &&
            w'.calls == w.calls &&
            w'.events == w.events + (if oldUsername.Some? && oldPassword.Some? then [XmppDisconnect(id)] else [])
                                  + ConnectEvents(p, id, s') &&
            o == ConnectStep(p, id, w.(store := s')).0
  {
    ConnectChecksInOrder(p, id, w.(store := StoreAccount(w.store, newUsername, newPassword, newResource)));
  }

  /** `setAccount` is `changeAccount(null, null, ...)`: it never disconnects
      before storing; its only requests are those of `connect()`. */
  lemma SetAccountNeverDisconnectsFirst(p: Platform, id: string, w: World,
                                        username: JString, password: JString, resource: JString)
    requires Verify(w.store, username, password)
    ensures var s' := StoreAccount(w.store, username, password, resource);
            ChangeAccountStep(p, id, w, None, None, username, password, resource).1
            == World(s', w.events + ConnectEvents(p, id, s'), w.calls)
  {
    ChangeAccountStoresBeforeConnect(p, id, w, None, None, username, password, resource);
  }

  /** After `setAccount(u, p, r)` gets past verification, `verifyAccount(u, p)`
      holds and any other password fails. */
  lemma SetAccountThenVerify(p: Platform, id: string, w: World,
                             username: JString, password: JString, resource: JString, wrong: JString)
    requires ChangeAccountStep(p, id, w, None, None, username, password, resource).0 != Fail(AccountMismatch)
    ensures var w' := ChangeAccountStep(p, id, w, None, None, username, password, resource).1;
            Verify(w'.store, username, password) &&
            (password.Some? && wrong != password ==> !Verify(w'.store, username, wrong))
  {
    ChangeAccountVerifiesNewPair(p, id, w, None, None, username, password, resource);
    ChangeAccountStoresBeforeConnect(p, id, w, None, None, username, password, resource);
  }

  /** Because the new pair is the one verified, once a username and a
      password are stored no call of `changeAccount` can replace them. */
  lemma ChangeAccountKeepsStoredPair(p: Platform, id: string, w: World,
                                     oldUsername: JString, oldPassword: JString,
                                     newUsername: JString, newPassword: JString,
                                     newResource: JString)
    requires Username(w.store).Some? && Password(w.store).Some?
    ensures var w' := ChangeAccountStep(p, id, w, oldUsername, oldPassword, newUsername, newPassword, newResource).1;
            Username(w'.store) == Username(w.store) && Password(w'.store) == Password(w.store)
  {
    if Verify(w.store, newUsername, newPassword) {
      if oldUsername.Some? && oldPassword.Some? && !(p.xmppRegistered && p.transportOk(XmppDisconnect(id))) {
        ChangeAccountDisconnectFailureAborts(p, id, w, oldUsername, oldPassword, newUsername, newPassword, newResource);
      } else {
        ChangeAccountStoresBeforeConnect(p, id, w, oldUsername, oldPassword, newUsername, newPassword, newResource);
      }
    }
  }

  /** A second `setAccount` with a different non-null account fails and
      changes nothing. */
  lemma SetAccountTwiceFails(p: Platform, id: string, w: World,
                             username: JString, password: JString, resource: JString,
                             username2: JString, password2: JString, resource2: JString)
    requires username.Some? && password.Some?
    requires ChangeAccountStep(p, id, w, None, None, username, password, resource).0 != Fail(AccountMismatch)
    requires username2 != username || password2 != password
    ensures var w1 := ChangeAccountStep(p, id, w, None, None, username, password, resource).1;
            ChangeAccountStep(p, id, w1, None, None, username2, password2, resource2) == (Fail(AccountMismatch), w1)
  {
    ChangeAccountVerifiesNewPair(p, id, w, None, None, username, password, resource);
    ChangeAccountStoresBeforeConnect(p, id, w, None, None, username, password, resource);
  }

  /** `removeAccount` with a pair that passes verification removes all three
      keys even when the disconnect fails; its only request is that disconnect. */
  lemma RemoveAccountClears(p: Platform, id: string, w: World, username: JString, password: JString)
    requires Verify(w.store, username, password)
    ensures var w' := RemoveAccountStep(p, id, w, username, password);
            w'.store == ClearAccount(w.store) &&
            Username(w'.store).None? && Password(w'.store).None? && Resource(w'.store).None? &&
            w'.events == w.events + (if p.xmppRegistered then [XmppDisconnect(id)] else []) &&
            w'.calls == w.calls
  {
  }

  /** `removeAccount` with a pair that fails verification changes nothing and
      raises nothing. */
  lemma RemoveAccountMismatchChangesNothing(p: Platform, id: string, w: World,
                                            username: JString, password: JString)
    requires !Verify(w.store, username, password)
    ensures RemoveAccountStep(p, id, w, username, password) == w
  {
  }

  // ----- the directory client -----

  /** `getXmppUrl` picks the FIRST of the agent's urls that starts with "xmpp:". */
  lemma {:induction false} XmppUrlIsFirst(urls: seq<string>, k: nat)
    requires k < |urls| && IsXmppUrl(urls[k])
    requires forall j :: 0 <= j < k ==> !IsXmppUrl(urls[j])
    ensures XmppUrl(urls) == Some(urls[k])
  {
    if k > 0 {
      XmppUrlIsFirst(urls[1..], k - 1);
    }
  }

  /** Conversely, the url `getXmppUrl` returns stands at an index before
      which no url starts with "xmpp:". */
  lemma {:induction false} XmppUrlHasNoEarlier(urls: seq<string>)
    requires XmppUrl(urls).Some?
    ensures exists k :: 0 <= k < |urls| && urls[k] == XmppUrl(urls).value &&
                        forall j :: 0 <= j < k ==> !IsXmppUrl(urls[j])
  {
    if !IsXmppUrl(urls[0]) {
      XmppUrlHasNoEarlier(urls[1..]);
      var k :| 0 <= k < |urls[1..]| && urls[1..][k] == XmppUrl(urls[1..]).value &&
               forall j :: 0 <= j < k ==> !IsXmppUrl(urls[1..][j]);
      assert urls[k + 1] == XmppUrl(urls).value;
      forall j | 0 <= j < k + 1 ensures !IsXmppUrl(urls[j]) {
        if j > 0 {
          assert urls[j] == urls[1..][j - 1];
        }
      }
    } else {
      assert urls[0] == XmppUrl(urls).value;
    }
  }

  /** Without a stored username, `register` throws and `unregister` quietly
      returns; neither sends anything nor changes anything. */
  lemma RegistrationNeedsUsername(p: Platform, urls: seq<string>, w: World, dataType: JString)
    requires Username(w.store).None?
    ensures RegisterStep(p, urls, w, dataType) == (Fail(NoIdentity), w)
    ensures UnregisterStep(p, urls, w, dataType) == (Pass, w)
  {
  }

  /** With a stored username, `register` and `unregister` each send exactly one
      call to the directory, naming the stored username, the agent's xmpp url
      (or null) and the data type; its outcome is the directory's. */
  lemma RegistrationSendsOneCall(p: Platform, urls: seq<string>, w: World, dataType: JString)
    requires Username(w.store).Some?
    ensures var ds := Entity.Record(Username(w.store), XmppUrl(urls), dataType);
            var reg := Call(MerlinUrl, "register", DataSourceParams(ds));
            var unreg := Call(MerlinUrl, "unregister", DataSourceParams(ds));
            RegisterStep(p, urls, w, dataType).1 == w.(calls := w.calls + [reg]) &&
            (RegisterStep(p, urls, w, dataType).0 == Pass <==> p.accepts(reg)) &&
            UnregisterStep(p, urls, w, dataType).1 == w.(calls := w.calls + [unreg]) &&
            (UnregisterStep(p, urls, w, dataType).0 == Pass <==> p.accepts(unreg))
  {
  }

  /** `findDataSource` sends one `find` to the directory and returns the first
      url listed, null for an empty list; it throws only when the call does. */
  lemma FindTakesFirstHit(p: Platform, w: World, userId: JString, dataType: JString)
    ensures FindStep(p, w, userId, dataType).1 == w.(calls := w.calls + [FindCall(userId, dataType)])
    ensures p.directory(FindCall(userId, dataType)).None? ==>
              FindStep(p, w, userId, dataType).0 == Err(RemoteFailure)
    ensures p.directory(FindCall(userId, dataType)) == Some([]) ==>
              FindStep(p, w, userId, dataType).0 == Ok(None)
    ensures forall hits :: p.directory(FindCall(userId, dataType)) == Some(hits) && |hits| > 0 ==>
              FindStep(p, w, userId, dataType).0 == Ok(Some(hits[0]))
  {
  }

  // ----- the routing flows -----

  /** `sendNotification` looks up a "dialog" agent for the given user, or for
      the agent itself when none is given; when the directory knows none it
      throws and the lookup is the only call sent. */
  lemma NotifyWithoutProvider(p: Platform, id: string, w: World, userId: JString, message: JString)
    requires p.directory(FindCall(Some(NotifiedUser(id, userId)), Some(DialogType))) == Some([])
    ensures userId.None? ==> NotifiedUser(id, userId) == id
    ensures NotifyStep(p, id, w, userId, message)
            == (Fail(NoDialogSource(NotifiedUser(id, userId))),
                w.(calls := w.calls + [FindCall(Some(NotifiedUser(id, userId)), Some(DialogType))]))
  {
  }

  /** When the directory lists "dialog" agents, exactly one `onNotification`
      goes to the first of them, after the lookup. */
  lemma NotifyRoutesToFirstHit(p: Platform, id: string, w: World, userId: JString, message: JString,
                               hits: seq<string>)
    requires p.directory(FindCall(Some(NotifiedUser(id, userId)), Some(DialogType))) == Some(hits)
    requires |hits| > 0
    ensures var c := Call(hits[0], "onNotification", NotificationParams(message));
            NotifyStep(p, id, w, userId, message).1
            == w.(calls := w.calls + [FindCall(Some(NotifiedUser(id, userId)), Some(DialogType)), c]) &&
            (NotifyStep(p, id, w, userId, message).0 == Pass <==> p.accepts(c))
  {
  }

  /** `getContacts` looks up a "contacts" agent for the agent itself; when the
      directory knows none it throws and the lookup is the only call sent. */
  lemma ContactsWithoutProvider(p: Platform, id: string, w: World, filter: Option<Json>)
    requires p.directory(FindCall(Some(id), Some(ContactsType))) == Some([])
    ensures ContactsStep(p, id, w, filter)
            == (Err(NoContactsSource(id)), w.(calls := w.calls + [FindCall(Some(id), Some(ContactsType))]))
  {
  }

  /** When the directory lists "contacts" agents, a null filter is sent as ""
      to the first of them in exactly one call, and the parsed reply is
      returned. */
  lemma ContactsNullFilterSendsEmpty(p: Platform, id: string, w: World, hits: seq<string>)
    requires p.directory(FindCall(Some(id), Some(ContactsType))) == Some(hits)
    requires |hits| > 0
    ensures var c := Call(hits[0], "getContacts", FilterParams(""));
            ContactsStep(p, id, w, None).1
            == w.(calls := w.calls + [FindCall(Some(id), Some(ContactsType)), c]) &&
            (p.peerReply(c).None? ==> ContactsStep(p, id, w, None).0 == Err(RemoteFailure)) &&
            (forall reply :: p.peerReply(c) == Some(reply) ==>
               ContactsStep(p, id, w, None).0 ==
                 (match p.readArray(reply) case None => Err(JsonFailure) case Some(j) => Ok(j)))
  {
  }

  /** For every filter, once the directory lists "contacts" agents: a filter
      the JSON writer rejects throws with the lookup as the only call;
      otherwise exactly one `getContacts` call carrying the written text goes
      to the first of them, after the lookup. */
  lemma ContactsRoutesToFirstHit(p: Platform, id: string, w: World, filter: Option<Json>, hits: seq<string>)
    requires p.directory(FindCall(Some(id), Some(ContactsType))) == Some(hits)
    requires |hits| > 0
    ensures var find := FindCall(Some(id), Some(ContactsType));
            match FilterText(p, filter)
            case None =>
              ContactsStep(p, id, w, filter) == (Err(JsonFailure), w.(calls := w.calls + [find]))
            case Some(t) =>
              ContactsStep(p, id, w, filter).1
              == w.(calls := w.calls + [find, Call(hits[0], "getContacts", FilterParams(t))])
  {
  }

  /** When the lookup itself fails, both routing flows throw its error and
      the lookup is the only call sent: no peer is called. */
  lemma LookupFailureMakesNoPeerCall(p: Platform, id: string, w: World, userId: JString, message: JString,
                                     filter: Option<Json>)
    ensures p.directory(FindCall(Some(NotifiedUser(id, userId)), Some(DialogType))).None? ==>
              NotifyStep(p, id, w, userId, message)
              == (Fail(RemoteFailure),
                  w.(calls := w.calls + [FindCall(Some(NotifiedUser(id, userId)), Some(DialogType))]))
    ensures p.directory(FindCall(Some(id), Some(ContactsType))).None? ==>
              ContactsStep(p, id, w, filter)
              == (Err(RemoteFailure), w.(calls := w.calls + [FindCall(Some(id), Some(ContactsType))]))
  {
  }

  /** The directory client and the routing flows never touch the account or
      the XMPP session. */
  lemma RemoteCallsLeaveAccountAlone(p: Platform, id: string, urls: seq<string>, w: World,
                                     userId: JString, dataType: JString, message: JString,
                                     filter: Option<Json>)
    ensures RegisterStep(p, urls, w, dataType).1.store == w.store
    ensures RegisterStep(p, urls, w, dataType).1.events == w.events
    ensures UnregisterStep(p, urls, w, dataType).1.store == w.store
    ensures UnregisterStep(p, urls, w, dataType).1.events == w.events
    ensures FindStep(p, w, userId, dataType).1.store == w.store
    ensures FindStep(p, w, userId, dataType).1.events == w.events
    ensures NotifyStep(p, id, w, userId, message).1.store == w.store
    ensures NotifyStep(p, id, w, userId, message).1.events == w.events
    ensures ContactsStep(p, id, w, filter).1.store == w.store
    ensures ContactsStep(p, id, w, filter).1.events == w.events
  {
  }
}
