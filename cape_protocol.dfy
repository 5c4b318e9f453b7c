/** The agent's protocol as pure functions: the credential store kept in the
    agent's key/value state, the XMPP session control, the client of the
    directory agent ("Merlin") at its fixed address, and the two routing
    flows built on it. Each step function takes a snapshot of the agent
    (`World`) and says what the operation returns and what the snapshot
    becomes; the `CapeAgent` class performs the same steps in place. */
module CapeProtocol {
  import opened Values
  import Entity

  /** The directory agent's address, hard-coded in the agent. */
  const MerlinUrl: string := "xmpp:merlin@openid.almende.org"

  /** The three state keys holding the XMPP account. */
  const UsernameKey: string := "xmppUsername"
  const PasswordKey: string := "xmppPassword"
  const ResourceKey: string := "xmppResource"

  /** The data types the routing flows look up. */
  const DialogType: string := "dialog"
  const ContactsType: string := "contacts"

  /** The agent's persistent key/value state. */
  type Store = map<string, string>

  /** The exceptions the operations raise. */
  datatype Error =
    | AccountMismatch              // changeAccount: the pair does not match the stored one
    | NoXmppService                // connect, disconnect: no "xmpp" transport registered
    | NoUsernameSet                // connect: no username stored
    | NoPasswordSet(username: string)  // connect: a username but no password stored
    | NoIdentity                   // register: no username stored
    | NoDialogSource(userId: string)   // sendNotification: the directory knows no "dialog" agent
    | NoContactsSource(userId: string) // getContacts: the directory knows no "contacts" agent
    | TransportFailure             // the XMPP service refused a connect or disconnect
    | RemoteFailure                // a remote call raised an error
    | JsonFailure                  // a filter could not be written or a reply could not be read

  /** A void operation that may throw. */
  datatype Outcome = Pass | Fail(error: Error)

  /** An operation returning a `T` that may throw. */
  datatype Result<T> = Ok(value: T) | Err(error: Error)

  /** A request made to the XMPP service. */
  datatype Event =
    | XmppConnect(agentId: string, username: string, password: string, resource: JString)
    | XmppDisconnect(agentId: string)

  /** The parameters of a remote call. */
  datatype Params =
    | DataSourceParams(dataSource: Entity.Record)     // register, unregister
    | FindParams(userId: JString, dataType: JString) // find
    | NotificationParams(message: JString)           // onNotification
    | FilterParams(filter: string)                   // getContacts

  /** A remote call: target address, method name and parameters. */
  datatype Call = Call(target: string, name: string, params: Params)

  /** The agent platform and the peers as the agent sees them: whether an
      XMPP service is registered, which requests the service accepts, which
      calls the peers accept, what the directory replies to a `find` (the
      `agentUrl`s it lists, or nothing when the call fails), what a contacts
      agent replies, and the JSON writer and reader. */
  datatype Platform = Platform(
    xmppRegistered: bool,
    transportOk: Event -> bool,
    accepts: Call -> bool,
    directory: Call -> Option<seq<string>>,
    peerReply: Call -> Option<string>,
    writeFilter: Json -> Option<string>,
    readArray: string -> Option<Json>)

  /** What the operations change: the state, the requests made to the XMPP
      service, and the remote calls sent, oldest first. */
  datatype World = World(store: Store, events: seq<Event>, calls: seq<Call>)

  // ----- the key/value state -----

  /** `State.get`: null when the key is absent. */
  function Get(s: Store, key: string): JString {
    if key in s then Some(s[key]) else None
  }

  /** `State.put`; putting `null` is modelled as removing the key, assuming
      `get` then reads `null`. */
  function Put(s: Store, key: string, v: JString): Store {
    match v
    case None => s - {key}
    case Some(x) => s[key := x]
  }

  /** `getUsername` and the two other account fields. */
  function Username(s: Store): JString { Get(s, UsernameKey) }
  function Password(s: Store): JString { Get(s, PasswordKey) }
  function Resource(s: Store): JString { Get(s, ResourceKey) }

  // ----- the credential store -----

  /** One field of `verifyAccount`: nothing stored matches anything, and a
      stored value matches only an equal supplied value (never `null`). */
  predicate FieldMatches(stored: JString, supplied: JString) {
    stored.None? || stored == supplied
  }

  /** `verifyAccount(username, password)`. */
  function Verify(s: Store, username: JString, password: JString): (ok: bool)
    ensures Username(s).None? && Password(s).None? ==> ok
    ensures ok ==> Username(s).None? || Username(s) == username
    ensures ok ==> Password(s).None? || Password(s) == password
    ensures Username(s).Some? && username.None? ==> !ok
    ensures Password(s).Some? && password.None? ==> !ok
    ensures ((Username(s).None? || Username(s) == username) &&
             (Password(s).None? || Password(s) == password)) ==> ok
  {
    FieldMatches(Username(s), username) && FieldMatches(Password(s), password)
  }

  /** The three writes of `changeAccount`: username, password, and the
      resource, which is removed when `null`. */
  function StoreAccount(s: Store, username: JString, password: JString, resource: JString): (s': Store)
    ensures Username(s') == username && Password(s') == password && Resource(s') == resource
    ensures forall k :: k != UsernameKey && k != PasswordKey && k != ResourceKey ==> Get(s', k) == Get(s, k)
  {
    Put(Put(Put(s, UsernameKey, username), PasswordKey, password), ResourceKey, resource)
  }

  /** The state after `removeAccount` succeeds. */
  function ClearAccount(s: Store): (s': Store)
    ensures Username(s').None? && Password(s').None? && Resource(s').None?
    ensures forall k :: k != UsernameKey && k != PasswordKey && k != ResourceKey ==> Get(s', k) == Get(s, k)
  {
    s - {UsernameKey, PasswordKey, ResourceKey}
  }

  // ----- the XMPP session -----

  /** One request to the XMPP service: recorded, then accepted or refused. */
  function TransportStep(p: Platform, w: World, e: Event): (Outcome, World) {
    (if p.transportOk(e) then Pass else Fail(TransportFailure), w.(events := w.events + [e]))
  }

  /** `disconnect()`. */
  function DisconnectStep(p: Platform, id: string, w: World): (Outcome, World) {
    if !p.xmppRegistered then (Fail(NoXmppService), w)
    else TransportStep(p, w, XmppDisconnect(id))
  }

  /** `connect()`: the service, then the username, then the password are
      checked; then a disconnect whose failure is ignored, then the connect. */
  function ConnectStep(p: Platform, id: string, w: World): (Outcome, World) {
    if !p.xmppRegistered then (Fail(NoXmppService), w)
    else
      match (Username(w.store), Password(w.store))
      case (None, _) => (Fail(NoUsernameSet), w)
      case (Some(u), None) => (Fail(NoPasswordSet(u)), w)
      case (Some(u), Some(pw)) =>
        var w1 := DisconnectStep(p, id, w).1;
        TransportStep(p, w1, XmppConnect(id, u, pw, Resource(w.store)))
  }

  /** `changeAccount(oldUsername, oldPassword, newUsername, newPassword,
      newResource)`: the NEW pair is verified against the stored one; a
      disconnect (whose failure propagates) when both old fields are given;
      the new account is stored, then `connect()`. */
  function ChangeAccountStep(p: Platform, id: string, w: World,
                             oldUsername: JString, oldPassword: JString,
                             newUsername: JString, newPassword: JString,
                             newResource: JString): (Outcome, World)
  {
    if !Verify(w.store, newUsername, newPassword) then (Fail(AccountMismatch), w)
    else
      var (o, w1) := if oldUsername.Some? && oldPassword.Some? then DisconnectStep(p, id, w) else (Pass, w);
      if o.Fail? then (o, w1)
      else ConnectStep(p, id, w1.(store := StoreAccount(w1.store, newUsername, newPassword, newResource)))
  }

  /** `removeAccount(username, password)`: never throws. */
  function RemoveAccountStep(p: Platform, id: string, w: World,
                             username: JString, password: JString): World
  {
    if !Verify(w.store, username, password) then w
    else
      var w1 := DisconnectStep(p, id, w).1;
      w1.(store := ClearAccount(w1.store))
  }

  // ----- the directory client -----

  /** A url of the agent's XMPP transport. */
  predicate IsXmppUrl(url: string) {
    "xmpp:" <= url
  }

  /** `getXmppUrl()`: the first of the agent's urls that starts with "xmpp:". */
  function XmppUrl(urls: seq<string>): (r: JString)
    ensures r.Some? ==> r.value in urls && IsXmppUrl(r.value)
    ensures r.None? <==> forall i :: 0 <= i < |urls| ==> !IsXmppUrl(urls[i])
  {
    if |urls| == 0 then None
    else if IsXmppUrl(urls[0]) then Some(urls[0])
    else XmppUrl(urls[1..])
  }

  /** A remote call: recorded, then accepted or refused. */
  function SendStep(p: Platform, w: World, c: Call): (Outcome, World) {
    (if p.accepts(c) then Pass else Fail(RemoteFailure), w.(calls := w.calls + [c]))
  }

  /** The call `register` and `unregister` send to the directory. */
  function DataSourceCall(name: string, username: string, urls: seq<string>, dataType: JString): Call {
    Call(MerlinUrl, name, DataSourceParams(Entity.Record(Some(username), XmppUrl(urls), dataType)))
  }

  /** `register(dataType)`. */
  function RegisterStep(p: Platform, urls: seq<string>, w: World, dataType: JString): (Outcome, World) {
    match Username(w.store)
    case None => (Fail(NoIdentity), w)
    case Some(u) => SendStep(p, w, DataSourceCall("register", u, urls, dataType))
  }

  /** `unregister(dataType)`. */
  function UnregisterStep(p: Platform, urls: seq<string>, w: World, dataType: JString): (Outcome, World) {
    match Username(w.store)
    case None => (Pass, w)
    case Some(u) => SendStep(p, w, DataSourceCall("unregister", u, urls, dataType))
  }

  /** The call `findDataSource` sends to the directory. */
  function FindCall(userId: JString, dataType: JString): Call {
    Call(MerlinUrl, "find", FindParams(userId, dataType))
  }

  /** The url `findDataSource` takes from the directory's reply. */
  function FirstHit(agentUrls: seq<string>): (r: JString)
    ensures r.None? <==> agentUrls == []
    ensures r.Some? ==> r.value == agentUrls[0]
  {
    if |agentUrls| > 0 then Some(agentUrls[0]) else None
  }

  /** `findDataSource(userId, dataType)`. */
  function FindStep(p: Platform, w: World, userId: JString, dataType: JString): (Result<JString>, World) {
    var c := FindCall(userId, dataType);
    var w1 := w.(calls := w.calls + [c]);
    match p.directory(c)
    case None => (Err(RemoteFailure), w1)
    case Some(hits) => (Ok(FirstHit(hits)), w1)
  }

  // ----- the routing flows -----

  /** The user `sendNotification` notifies: the given one, or the agent itself. */
  function NotifiedUser(id: string, userId: JString): string {
    if userId.None? then id else userId.value
  }

  /** `sendNotification(userId, message)`. */
  function NotifyStep(p: Platform, id: string, w: World, userId: JString, message: JString): (Outcome, World) {
    var uid := NotifiedUser(id, userId);
    var (found, w1) := FindStep(p, w, Some(uid), Some(DialogType));
    match found
    case Err(e) => (Fail(e), w1)
    case Ok(None) => (Fail(NoDialogSource(uid)), w1)
    case Ok(Some(url)) => SendStep(p, w1, Call(url, "onNotification", NotificationParams(message)))
  }

  /** The filter text `getContacts` sends: empty for a `null` filter. */
  function FilterText(p: Platform, filter: Option<Json>): Option<string> {
    match filter
    case None => Some("")
    case Some(f) => p.writeFilter(f)
  }

  /** `getContacts(filter)`. */
  function ContactsStep(p: Platform, id: string, w: World, filter: Option<Json>): (Result<Json>, World) {
    var (found, w1) := FindStep(p, w, Some(id), Some(ContactsType));
    match found
    case Err(e) => (Err(e), w1)
    case Ok(None) => (Err(NoContactsSource(id)), w1)
    case Ok(Some(url)) =>
      match FilterText(p, filter)
      case None => (Err(JsonFailure), w1)
      case Some(text) =>
        var c := Call(url, "getContacts", FilterParams(text));
        var w2 := w1.(calls := w1.calls + [c]);
        match p.peerReply(c)
        case None => (Err(RemoteFailure), w2)
        case Some(reply) =>
          match p.readArray(reply)
          case None => (Err(JsonFailure), w2)
          case Some(contacts) => (Ok(contacts), w2)
  }
}
