/** The agent itself: its key/value state, updated in place, and the
    requests it makes to the XMPP service and to remote agents, recorded in
    ghost logs. Every method is proved to do what the step function of the
    same name in `CapeProtocol` describes. */
module CapeAgentModel {
  import opened Values
  import opened CapeProtocol
  import Entity

  class CapeAgent {
    /** `getId()`. */
    const id: string
    /** `getUrls()`. */
    const urls: seq<string>
    /** The agent host, the XMPP service and the peers. */
    const platform: Platform

    /** `getState()`. */
    var state: Store
    /** The requests made to the XMPP service, oldest first. */
    ghost var transportLog: seq<Event>
    /** The remote calls sent, oldest first. */
    ghost var callLog: seq<Call>

    ghost function Snapshot(): World
      reads this
    {
      World(state, transportLog, callLog)
    }

    constructor (id: string, urls: seq<string>, platform: Platform, state: Store)
      ensures this.id == id && this.urls == urls && this.platform == platform
      ensures Snapshot() == World(state, [], [])
    {
      this.id, this.urls, this.platform := id, urls, platform;
      this.state := state;
      transportLog, callLog := [], [];
    }

    /** `disconnect()`. */
    method Disconnect() returns (r: Outcome)
      modifies this
      ensures (r, Snapshot()) == DisconnectStep(platform, id, old(Snapshot()))
    {
      if !platform.xmppRegistered {
        return Fail(NoXmppService);
      }
      var e := XmppDisconnect(id);
      transportLog := transportLog + [e];
      r := if platform.transportOk(e) then Pass else Fail(TransportFailure);
    }

    /** `connect()`. */
    method Connect() returns (r: Outcome)
      modifies this
      ensures (r, Snapshot()) == ConnectStep(platform, id, old(Snapshot()))
    {
      if !platform.xmppRegistered {
        return Fail(NoXmppService);
      }
      var username := Get(state, UsernameKey);
      var password := Get(state, PasswordKey);
      var resource := Get(state, ResourceKey);
      if username.None? {
        return Fail(NoUsernameSet);
      }
      if password.None? {
        return Fail(NoPasswordSet(username.value));
      }
      var _ := Disconnect();
      var e := XmppConnect(id, username.value, password.value, resource);
      transportLog := transportLog + [e];
      r := if platform.transportOk(e) then Pass else Fail(TransportFailure);
    }

    /** `changeAccount(oldUsername, oldPassword, newUsername, newPassword, newResource)`. */
    method ChangeAccount(oldUsername: JString, oldPassword: JString,
                         newUsername: JString, newPassword: JString, newResource: JString)
      returns (r: Outcome)
      modifies this
      ensures (r, Snapshot()) == ChangeAccountStep(platform, id, old(Snapshot()),
                                   oldUsername, oldPassword, newUsername, newPassword, newResource)
    {
      if !Verify(state, newUsername, newPassword) {
        return Fail(AccountMismatch);
      }
      if oldUsername.Some? && oldPassword.Some? {
        r := Disconnect();
        if r.Fail? {
          return;
        }
      }
      state := Put(state, UsernameKey, newUsername);
      state := Put(state, PasswordKey, newPassword);
      if newResource.Some? {
        state := state[ResourceKey := newResource.value];
      } else {
        state := state - {ResourceKey};
      }
      r := Connect();
    }

    /** `setAccount(username, password, resource)`. */
    method SetAccount(username: JString, password: JString, resource: JString) returns (r: Outcome)
      modifies this
      ensures (r, Snapshot()) == ChangeAccountStep(platform, id, old(Snapshot()),
                                   None, None, username, password, resource)
    {
      r := ChangeAccount(None, None, username, password, resource);
    }

    /** `removeAccount(username, password)`. */
    method RemoveAccount(username: JString, password: JString)
      modifies this
      ensures Snapshot() == RemoveAccountStep(platform, id, old(Snapshot()), username, password)
    {
      if Verify(state, username, password) {
        var _ := Disconnect();
        state := state - {UsernameKey};
        state := state - {PasswordKey};
        state := state - {ResourceKey};
      }
    }

    /** `getXmppUrl()`: a loop that returns at the first xmpp url. */
    method GetXmppUrl() returns (url: JString)
      ensures url == XmppUrl(urls)
    {
      for i := 0 to |urls|
        invariant XmppUrl(urls) == XmppUrl(urls[i..])
      {
        assert urls[i..] == [urls[i]] + urls[i + 1..];
        if IsXmppUrl(urls[i]) {
          return Some(urls[i]);
        }
      }
      return None;
    }

    /** A call through `send(url, method, params)`. */
    method Send(c: Call) returns (r: Outcome)
      modifies this
      ensures (r, Snapshot()) == SendStep(platform, old(Snapshot()), c)
    {
      callLog := callLog + [c];
      r := if platform.accepts(c) then Pass else Fail(RemoteFailure);
    }

    /** `register(dataType)`. */
    method Register(dataType: JString) returns (r: Outcome)
      modifies this
      ensures (r, Snapshot()) == RegisterStep(platform, urls, old(Snapshot()), dataType)
    {
      var username := Get(state, UsernameKey);
      if username.None? {
        return Fail(NoIdentity);
      }
      var agentUrl := GetXmppUrl();
      r := Send(Call(MerlinUrl, "register",
                     DataSourceParams(Entity.Record(username, agentUrl, dataType))));
    }

    /** `unregister(dataType)`. */
    method Unregister(dataType: JString) returns (r: Outcome)
      modifies this
      ensures (r, Snapshot()) == UnregisterStep(platform, urls, old(Snapshot()), dataType)
    {
      var username := Get(state, UsernameKey);
      r := Pass;
      if username.Some? {
        var agentUrl := GetXmppUrl();
        r := Send(Call(MerlinUrl, "unregister",
                       DataSourceParams(Entity.Record(username, agentUrl, dataType))));
      }
    }

    /** `findDataSource(userId, dataType)`. */
    method FindDataSource(userId: JString, dataType: JString) returns (r: Result<JString>)
      modifies this
      ensures (r, Snapshot()) == FindStep(platform, old(Snapshot()), userId, dataType)
    {
      var c := Call(MerlinUrl, "find", FindParams(userId, dataType));
      callLog := callLog + [c];
      var reply := platform.directory(c);
      if reply.None? {
        return Err(RemoteFailure);
      }
      var contactSources := reply.value;
      if |contactSources| > 0 {
        return Ok(Some(contactSources[0]));
      }
      return Ok(None);
    }

    /** `sendNotification(userId, message)`. */
    method SendNotification(userId: JString, message: JString) returns (r: Outcome)
      modifies this
      ensures (r, Snapshot()) == NotifyStep(platform, id, old(Snapshot()), userId, message)
    {
      var uid := if userId.None? then id else userId.value;
      var found := FindDataSource(Some(uid), Some(DialogType));
      if found.Err? {
        return Fail(found.error);
      }
      if found.value.None? {
        return Fail(NoDialogSource(uid));
      }
      r := Send(Call(found.value.value, "onNotification", NotificationParams(message)));
    }

    /** `getContacts(filter)`. */
    method GetContacts(filter: Option<Json>) returns (r: Result<Json>)
      modifies this
      ensures (r, Snapshot()) == ContactsStep(platform, id, old(Snapshot()), filter)
    {
      var found := FindDataSource(Some(id), Some(ContactsType));
      if found.Err? {
        return Err(found.error);
      }
      if found.value.None? {
        return Err(NoContactsSource(id));
      }
      var filterText := if filter.Some? then platform.writeFilter(filter.value) else Some("");
      if filterText.None? {
        return Err(JsonFailure);
      }
      var c := Call(found.value.value, "getContacts", FilterParams(filterText.value));
      callLog := callLog + [c];
      var contacts := platform.peerReply(c);
      if contacts.None? {
        return Err(RemoteFailure);
      }
      var parsed := platform.readArray(contacts.value);
      if parsed.None? {
        return Err(JsonFailure);
      }
      r := Ok(parsed.value);
    }
  }
}
