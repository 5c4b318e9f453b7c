# CAPE agent: credentials, XMPP session, directory client and routing

A Dafny model of `CapeAgent`, the base class of the CAPE agents. It also
models `DataSource`, the (userId, agentUrl, dataType) entry that the agents
exchange with the directory agent ("Merlin").

`CapeAgent` does four things:

- It keeps an XMPP account (username, password, resource) in the agent's
  key/value state, under the keys `xmppUsername`, `xmppPassword` and
  `xmppResource`. It verifies the account and changes it.
- It connects the agent to the XMPP service and disconnects it.
- It registers and unregisters the agent with the directory at
  `xmpp:merlin@openid.almende.org` as a provider of a data type, and asks the
  directory for providers.
- It routes a notification to the user's "dialog" agent, and fetches
  contacts from the agent's own "contacts" agent.

Files:

- `values.dfy` (module `Values`): Java's nullable strings as
  `Option<string>`, and an opaque JSON document.
- `data_source.dfy` (module `Entity`): `DataSource` as a class with three
  nullable fields, its two constructors, getters, setters and `equals`.
  `equals` evaluates to `Answer(b)` or to `NullPointer`, following Java's
  left-to-right `&&` and `String.equals`.
- `cape_protocol.dfy` (module `CapeProtocol`): a pure step function for each
  operation. It takes a `World` (the key/value state, the requests made to the
  XMPP service, the remote calls sent) and returns what the operation returns
  (an `Outcome` or a `Result` standing for the exception thrown) together with
  the new `World`. Everything outside the agent is a `Platform` value:
  - whether an XMPP service is registered;
  - which XMPP requests it accepts;
  - which remote calls succeed;
  - what the directory lists for a `find`;
  - what a contacts agent replies;
  - the JSON writer and reader.
- `cape_agent.dfy` (module `CapeAgentModel`): the class `CapeAgent`. Its
  `state` map is updated in place, step by step as the Java code does it. Ghost
  logs record the XMPP requests and the remote calls, and each method is proved
  equal to its step function.
- `cape_properties.dfy` (module `CapeProperties`): the lemmas.

The javadoc of `changeAccount` (`CapeAgent.java:46-53`) names an old and a
new pair, and its error text reads "old username or password does not match"
(`CapeAgent.java:78-79`). The javadoc of `setAccount` (`CapeAgent.java:26-28`)
says to use `changeAccount` once an account is set. Where the code does not do
what these comments describe, the model follows the code:

- `changeAccount` verifies the NEW username and password against the stored
  ones, not the old pair (`CapeAgent.java:63`). The old pair only decides
  whether a disconnect comes first. A consequence is proved as
  `ChangeAccountKeepsStoredPair`: once a username and a password are stored,
  no call of `changeAccount` can replace them. The javadoc of `setAccount`
  says to use `changeAccount` for exactly that.
- The disconnect that `changeAccount` makes when both old fields are given is
  not wrapped in a `try`. If it throws, `changeAccount` throws before storing
  anything (`ChangeAccountDisconnectFailureAborts`).
- The new account is stored before `connect()` runs, so a failed connect
  leaves it stored (`ChangeAccountStoresBeforeConnect`).
- `connect()` checks for the XMPP service before it checks the credentials.
- A supplied `null` never matches a stored value, and a field that is not
  stored matches anything (`Verify`).
- A failed verification in `removeAccount`, and a missing username in
  `unregister`, return silently. `register` throws in that case.

## Model

| member | source | states |
|---|---|---|
| CapeProtocol.Verify | cape-client/src/main/java/com/almende/cape/agent/CapeAgent.java:112-125 | verification holds exactly when each stored field is absent or equal to the supplied one; so it holds when nothing is stored, and a supplied null fails against a stored value |
| CapeProtocol.StoreAccount | cape-client/src/main/java/com/almende/cape/agent/CapeAgent.java:68-75 | afterwards the username, password and resource read back as the new values (a null resource reads as absent); every other key is unchanged |
| CapeProtocol.ClearAccount | cape-client/src/main/java/com/almende/cape/agent/CapeAgent.java:98-101 | afterwards none of the three account keys is set; every other key is unchanged |
| CapeProtocol.XmppUrl | cape-client/src/main/java/com/almende/cape/agent/CapeAgent.java:329-336 | the url returned is one of the agent's urls and starts with "xmpp:"; null is returned exactly when no url does |
| CapeProtocol.FirstHit | cape-client/src/main/java/com/almende/cape/agent/CapeAgent.java:249-257 | null exactly for an empty directory reply, otherwise the reply's element 0 |
| CapeAgentModel.CapeAgent.GetXmppUrl | cape-client/src/main/java/com/almende/cape/agent/CapeAgent.java:329-336 | the loop with early return yields the first url starting with "xmpp:", or null |
| CapeAgentModel.CapeAgent.Disconnect | cape-client/src/main/java/com/almende/cape/agent/CapeAgent.java:168-176 | new state, logs and outcome are those of DisconnectStep: no service means an error and no request, otherwise one disconnect request |
| CapeAgentModel.CapeAgent.Connect | cape-client/src/main/java/com/almende/cape/agent/CapeAgent.java:132-161 | new state, logs and outcome are those of ConnectStep: service, then username, then password checked; then a swallowed disconnect and one connect |
| CapeAgentModel.CapeAgent.ChangeAccount | cape-client/src/main/java/com/almende/cape/agent/CapeAgent.java:55-81 | new state, logs and outcome are those of ChangeAccountStep: verify the new pair, disconnect first when both old fields are given, store, connect |
| CapeAgentModel.CapeAgent.SetAccount | cape-client/src/main/java/com/almende/cape/agent/CapeAgent.java:35-39 | behaves exactly as changeAccount with both old fields null |
| CapeAgentModel.CapeAgent.RemoveAccount | cape-client/src/main/java/com/almende/cape/agent/CapeAgent.java:90-103 | new state and logs are those of RemoveAccountStep; it raises nothing |
| CapeAgentModel.CapeAgent.Register | cape-client/src/main/java/com/almende/cape/agent/CapeAgent.java:184-200 | new logs and outcome are those of RegisterStep |
| CapeAgentModel.CapeAgent.Unregister | cape-client/src/main/java/com/almende/cape/agent/CapeAgent.java:212-227 | new logs and outcome are those of UnregisterStep |
| CapeAgentModel.CapeAgent.FindDataSource | cape-client/src/main/java/com/almende/cape/agent/CapeAgent.java:238-258 | new logs and result are those of FindStep |
| CapeAgentModel.CapeAgent.SendNotification | cape-client/src/main/java/com/almende/cape/agent/CapeAgent.java:269-289 | new logs and outcome are those of NotifyStep |
| CapeAgentModel.CapeAgent.GetContacts | cape-client/src/main/java/com/almende/cape/agent/CapeAgent.java:301-322 | new logs and result are those of ContactsStep |
| CapeProperties.ConnectChecksInOrder | cape-client/src/main/java/com/almende/cape/agent/CapeAgent.java:132-161 | fails with no XMPP service before looking at credentials, then without a username, then without a password, making no request; otherwise exactly a disconnect then one connect with (id, username, password, resource), and the outcome is that of the connect alone |
| CapeProperties.DisconnectNeedsService | cape-client/src/main/java/com/almende/cape/agent/CapeAgent.java:168-176 | fails and makes no request when no service is registered; otherwise exactly one disconnect request, whose answer is the outcome |
| CapeProperties.ChangeAccountMismatchChangesNothing | cape-client/src/main/java/com/almende/cape/agent/CapeAgent.java:63-80 | a new pair that fails verification makes it throw with the state, the XMPP requests and the calls all unchanged |
| CapeProperties.ChangeAccountVerifiesNewPair | cape-client/src/main/java/com/almende/cape/agent/CapeAgent.java:63 | it throws the mismatch error exactly when the new pair fails verification, whatever the old pair |
| CapeProperties.ChangeAccountDisconnectFailureAborts | cape-client/src/main/java/com/almende/cape/agent/CapeAgent.java:64-66 | once the new pair passes verification, with both old fields given, a failing disconnect is thrown before anything is stored |
| CapeProperties.ChangeAccountStoresBeforeConnect | cape-client/src/main/java/com/almende/cape/agent/CapeAgent.java:64-76 | when the new pair passes verification and, if both old fields are given, the leading disconnect is accepted, the new account is stored whatever connect returns; the requests are that disconnect (only when both old fields are given), then those of connect on the new state |
| CapeProperties.SetAccountNeverDisconnectsFirst | cape-client/src/main/java/com/almende/cape/agent/CapeAgent.java:35-39 | when the pair passes verification, setAccount stores the account and makes only the requests of connect, with no leading disconnect |
| CapeProperties.SetAccountThenVerify | cape-client/src/main/java/com/almende/cape/agent/CapeAgent.java:35-39 | after a setAccount that passes verification, verifying the same pair holds; when the password set is non-null, any other password fails |
| CapeProperties.ChangeAccountKeepsStoredPair | cape-client/src/main/java/com/almende/cape/agent/CapeAgent.java:63-70 | once a username and a password are stored, no changeAccount call changes them |
| CapeProperties.SetAccountTwiceFails | cape-client/src/main/java/com/almende/cape/agent/CapeAgent.java:26-39 | after a setAccount of a non-null username and password passes verification, a second setAccount with a different pair fails and changes nothing |
| CapeProperties.RemoveAccountClears | cape-client/src/main/java/com/almende/cape/agent/CapeAgent.java:92-102 | after verification all three keys are removed even if the disconnect fails; the only request is that disconnect |
| CapeProperties.RemoveAccountMismatchChangesNothing | cape-client/src/main/java/com/almende/cape/agent/CapeAgent.java:92 | a pair that fails verification changes nothing and raises nothing |
| CapeProperties.XmppUrlIsFirst | cape-client/src/main/java/com/almende/cape/agent/CapeAgent.java:329-336 | when url k starts with "xmpp:" and no earlier one does, url k is the one returned |
| CapeProperties.XmppUrlHasNoEarlier | cape-client/src/main/java/com/almende/cape/agent/CapeAgent.java:329-336 | the url returned stands at an index before which no url starts with "xmpp:" |
| CapeProperties.RegistrationNeedsUsername | cape-client/src/main/java/com/almende/cape/agent/CapeAgent.java:184-227 | with no username stored, register throws and unregister returns, and neither sends or changes anything |
| CapeProperties.RegistrationSendsOneCall | cape-client/src/main/java/com/almende/cape/agent/CapeAgent.java:191-225 | with a username stored, each sends exactly one call to the directory with userId = username, agentUrl = the agent's xmpp url or null, and the data type |
| CapeProperties.FindTakesFirstHit | cape-client/src/main/java/com/almende/cape/agent/CapeAgent.java:238-258 | one find call to the directory; element 0 of a non-empty reply, null for an empty one, an error only when the call fails |
| CapeProperties.NotifyWithoutProvider | cape-client/src/main/java/com/almende/cape/agent/CapeAgent.java:269-282 | a null user becomes the agent's id; with no dialog provider it throws and the lookup is the only call |
| CapeProperties.NotifyRoutesToFirstHit | cape-client/src/main/java/com/almende/cape/agent/CapeAgent.java:277-288 | with providers listed, exactly one onNotification call goes to the first, after the lookup |
| CapeProperties.ContactsWithoutProvider | cape-client/src/main/java/com/almende/cape/agent/CapeAgent.java:302-309 | it looks up contacts for the agent's own id; with no provider it throws and the lookup is the only call |
| CapeProperties.ContactsNullFilterSendsEmpty | cape-client/src/main/java/com/almende/cape/agent/CapeAgent.java:312-321 | a null filter is sent as "" in exactly one call to the first provider, and the parsed reply is returned |
| CapeProperties.ContactsRoutesToFirstHit | cape-client/src/main/java/com/almende/cape/agent/CapeAgent.java:312-317 | with providers listed, for every filter: a filter the JSON writer rejects throws with the lookup as the only call; otherwise exactly one getContacts call carrying the written text goes to the first provider, after the lookup |
| CapeProperties.LookupFailureMakesNoPeerCall | cape-client/src/main/java/com/almende/cape/agent/CapeAgent.java:277-309 | when the find call itself fails, sendNotification and getContacts throw its error and the lookup is the only call sent |
| CapeProperties.RemoteCallsLeaveAccountAlone | cape-client/src/main/java/com/almende/cape/agent/CapeAgent.java:184-322 | the directory client and the routing flows change neither the state nor the XMPP session |
| Entity.DataSource.constructor | cape-client/src/main/java/com/almende/cape/entity/DataSource.java:9-33 | each getter returns the value given to the constructor |
| Entity.DataSource.Empty | cape-client/src/main/java/com/almende/cape/entity/DataSource.java:7 | all three fields are null |
| Entity.DataSource.SetAgentUrl | cape-client/src/main/java/com/almende/cape/entity/DataSource.java:19-21 | only agentUrl changes |
| Entity.DataSource.SetUserId | cape-client/src/main/java/com/almende/cape/entity/DataSource.java:27-29 | only userId changes |
| Entity.DataSource.SetDataType | cape-client/src/main/java/com/almende/cape/entity/DataSource.java:35-37 | only dataType changes |
| Entity.EqualsNull | cape-client/src/main/java/com/almende/cape/entity/DataSource.java:40-42 | equals(null) is false |
| Entity.EqualsSelf | cape-client/src/main/java/com/almende/cape/entity/DataSource.java:43-45 | an object equals itself, even with null fields |
| Entity.EqualsOtherClass | cape-client/src/main/java/com/almende/cape/entity/DataSource.java:46-48 | an object of another class is never equal |
| Entity.EqualsFieldwise | cape-client/src/main/java/com/almende/cape/entity/DataSource.java:50-53 | with no null field on the receiver, equals holds exactly when all three fields are pairwise equal |
| Entity.EqualsThrowsOnNullUserId | cape-client/src/main/java/com/almende/cape/entity/DataSource.java:51 | against another DataSource, a null userId on the receiver throws NullPointerException |
| Entity.EqualsSymmetric | cape-client/src/main/java/com/almende/cape/entity/DataSource.java:50-53 | with no null fields on either side, equals is symmetric |
| Entity.EqualsTransitive | cape-client/src/main/java/com/almende/cape/entity/DataSource.java:50-53 | with no null field on the first, equals is transitive |

## Left out

- `CapeClient` is not part of this model. It is a login/logout façade over the
  agent host, with a hard-coded XMPP host and port.
- `CapeMessageAgentIntf` is not part of this model. It declares signatures only.
- `getEverything` is not modelled. It is a debug dump of the state.
- Logging and the `System.err` output of `verifyAccount` are not modelled.
- The XMPP service, `send`, `getId()`, `getUrls()` and the agent host are
  abstract. The id and urls are constants of the agent. Each of the other
  collaborators is a function in `Platform`, giving the same answer to the
  same request, and is fixed for the agent's lifetime. A service that appears
  or disappears between two calls is therefore not modelled.
- The directory itself is not modelled; only its reply is, as an arbitrary
  list of `agentUrl`s. So "register, then find returns the address" is not a
  property of this model. Neither is a reply element lacking `agentUrl`, or a
  reply that is not an array.
- JSON is opaque. `writeValueAsString` and `readValue` are `Platform`
  functions that may fail. `URI.create` is the identity on strings, and its
  syntax errors are not modelled.
- `State.put(key, null)` is modelled as removing the key. This is an
  assumption: the agent's state store is not part of this model, and the model
  takes `get` to return null for the key either way. The case arises only when
  `changeAccount` is given a null username or password and verification
  passes because nothing is stored for that field.
- All parameters are nullable, including those the RPC layer marks as
  required, because Java callers may pass null.
- `getUsername` is the function `CapeProtocol.Username`. Its behaviour is
  stated through the register and unregister lemmas.
- `DataSource.equals` is the function `Equals`. Its contract is stated by the
  `Equals…` lemmas.
- Concurrency is not modelled: the operations run one at a time.
