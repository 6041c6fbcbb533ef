/** The constraints that the table declarations themselves enforce on every committed state. */
module Schema {
  import opened Backend

  /** Every primary key, token digest and lease id was drawn from the counter. */
  ghost predicate Drawn(w: World) {
    && (forall id :: id in w.users ==> id < w.serial)
    && (forall id :: id in w.sessions ==> id < w.serial && w.sessions[id].tokenHash < w.serial)
    && (forall id :: id in w.devices ==> id < w.serial)
    && (forall id :: id in w.deliveries ==> id < w.serial)
    && (forall id :: id in w.conversations ==> id < w.serial)
    && (forall id :: id in w.messages ==> id < w.serial)
  }

  ghost predicate ForeignKeys(w: World) {
    && (forall id :: id in w.sessions ==> w.sessions[id].userId in w.users)
    && (forall s :: s in w.identities ==> w.identities[s].userId in w.users)
    && (forall id :: id in w.devices ==> w.devices[id].userId in w.users && w.devices[id].sessionId in w.sessions)
    && (forall id :: id in w.deliveries ==> w.deliveries[id].deviceId in w.devices && w.deliveries[id].recipient in w.users)
    && (forall id :: id in w.conversations ==> w.conversations[id].lastReadAt.Keys <= w.users.Keys)
    && (forall id :: id in w.messages ==> w.messages[id].conversation in w.conversations && w.messages[id].sender in w.users)
  }

  /** uq_push_device_installation and uq_push_device_token. */
  predicate SameDeviceKey(a: Device, b: Device) {
    a.channel == b.channel && (a.installation == b.installation || a.token == b.token)
  }

  ghost predicate UniqueDevices(w: World) {
    forall a, b :: a in w.devices && b in w.devices && a != b ==> !SameDeviceKey(w.devices[a], w.devices[b])
  }

  ghost predicate UniqueTokens(w: World) {
    forall a, b :: a in w.sessions && b in w.sessions && a != b ==> w.sessions[a].tokenHash != w.sessions[b].tokenHash
  }

  /** uq_auth_identities_user_provider: one Google identity per account. */
  ghost predicate UniqueIdentities(w: World) {
    forall a, b :: a in w.identities && b in w.identities && a != b ==> w.identities[a].userId != w.identities[b].userId
  }

  ghost predicate UniqueEmails(w: World) {
    forall a, b :: a in w.users && b in w.users && a != b && w.users[a].email.Some? ==> w.users[a].email != w.users[b].email
  }

  /** uq_push_delivery_event_device. */
  ghost predicate UniqueOutbox(w: World) {
    forall a, b :: a in w.deliveries && b in w.deliveries && a != b ==>
      w.deliveries[a].eventKey != w.deliveries[b].eventKey || w.deliveries[a].deviceId != w.deliveries[b].deviceId
  }

  /** uq_message_client_id: a null client id never collides. */
  predicate SameClientKey(a: Message, b: Message) {
    a.clientId.Some? && a.clientId == b.clientId && a.conversation == b.conversation && a.sender == b.sender
  }

  ghost predicate UniqueMessages(w: World) {
    forall a, b :: a in w.messages && b in w.messages && a != b ==> !SameClientKey(w.messages[a], w.messages[b])
  }
}
