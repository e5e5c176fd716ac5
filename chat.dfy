/**
 * The state of the chat client (the `Chat` component without React): its
 * message list, notifications, draft, selection and groups, and the event
 * handlers that change them. Socket emits are appended to `outbox`; HTTP
 * responses, clock readings and the `tempId` arrive as parameters.
 */
module Chat {
  import opened JsValues
  import opened Seqs
  import opened Messages
  import opened Groups
  import opened Reconcile

  datatype Notification = Notification(id: int, text: string)

  /** A file picked in the file input. */
  datatype LocalFile = LocalFile(name: string)

  /** What the client emits on its socket. */
  datatype Outbound =
    | ChatMessage(recipient: Option<string>, group: Option<string>, body: Content, tempId: string)
    | JoinGroup(groupId: string)
    | LeaveGroup(groupId: string)

  const PermissionDeniedText := "You don't have permission to send messages in this group"
  const AddMemberFailedText := "Failed to add member"
  const UpdatePermissionsFailedText := "Failed to update permissions"

  /** The notice queued when someone else's message arrives. */
  function ArrivalNotice(sender: Value, content: Content): string {
    var name := SafeRender(if sender.Obj? then OfOption(sender.name) else Undefined, "Someone");
    match content
    case Attachment(_) => name + " sent a file"
    case Text(t) => name + ": " + t
  }

  /** The editing panel after a click on a group's Edit/Close button. */
  function Toggled(editing: Option<string>, groupId: string): Option<string> {
    if editing == Some(groupId) then None else Some(groupId)
  }

  /** Toggling the same group twice restores the panel exactly when it was closed or open on that group. */
  lemma ToggleTwice(editing: Option<string>, groupId: string)
    ensures Toggled(Toggled(editing, groupId), groupId) == editing
        <==> editing == None || editing == Some(groupId)
  {
  }

  function NotId(id: int): Notification -> bool {
    (n: Notification) => n.id != id
  }

  /**
   * The leave and join emits of the selected-group effect: when the selection
   * changes, the old group (if one was joined) is left and the new one joined.
   */
  function GroupSwitch(connected: bool, from: Option<string>, to: Option<string>): seq<Outbound> {
    if from == to then []
    else
      (if connected && Present(from) then [LeaveGroup(from.value)] else [])
      + (if connected && Present(to) then [JoinGroup(to.value)] else [])
  }

  function Step(joined: set<string>, o: Outbound): set<string> {
    match o
    case JoinGroup(g) => joined + {g}
    case LeaveGroup(g) => joined - {g}
    case ChatMessage(_, _, _, _) => joined
  }

  /** The groups the emitted joins and leaves leave the connection subscribed to. */
  function Joined(events: seq<Outbound>): set<string> {
    if events == [] then {} else Step(Joined(events[..|events| - 1]), events[|events| - 1])
  }

  lemma {:induction false} JoinedAppend(events: seq<Outbound>, more: seq<Outbound>)
    ensures Joined(events + more) == JoinedAfter(Joined(events), more)
  {
    if more != [] {
      var all := events + more;
      assert all[..|all| - 1] == events + more[..|more| - 1];
      JoinedAppend(events, more[..|more| - 1]);
    } else {
      assert events + more == events;
    }
  }

  /** A chat message emit leaves the subscription as it was. */
  lemma JoinedIgnoresChat(events: seq<Outbound>, o: Outbound)
    requires o.ChatMessage?
    ensures Joined(events + [o]) == Joined(events)
  {
    assert (events + [o])[..|events|] == events;
  }

  function JoinedAfter(joined: set<string>, more: seq<Outbound>): set<string> {
    if more == [] then joined else Step(JoinedAfter(joined, more[..|more| - 1]), more[|more| - 1])
  }

  function Subscription(connected: bool, group: Option<string>): set<string> {
    if connected && Present(group) then {group.value} else {}
  }

  /** Switching the selection moves the subscription from the old group to the new one. */
  lemma SwitchMovesSubscription(connected: bool, from: Option<string>, to: Option<string>)
    ensures JoinedAfter(Subscription(connected, from), GroupSwitch(connected, from, to))
         == Subscription(connected, to)
  {
    var leave := if connected && Present(from) then [LeaveGroup(from.value)] else [];
    var join := if connected && Present(to) then [JoinGroup(to.value)] else [];
    if from != to {
      var s := leave + join;
      var before := Subscription(connected, from);
      var afterLeave := JoinedAfter(before, leave);
      if leave != [] {
        assert leave[..0] == [];
        assert afterLeave == Step(JoinedAfter(before, []), leave[0]);
      }
      assert afterLeave == {};
      if join != [] {
        assert s[..|s| - 1] == leave;
        assert JoinedAfter(before, s) == Step(afterLeave, JoinGroup(to.value));
      } else {
        assert s == leave;
      }
    }
  }

  class ChatClient {
    var users: seq<User>
    var messages: seq<Entry>
    var draft: string
    var recipient: Option<string>
    var selectedGroup: Option<string>
    var groups: seq<Group>
    var currentUserId: Option<string>
    var selectedFile: Option<LocalFile>
    var notifications: seq<Notification>
    var editingGroupId: Option<string>
    var outbox: seq<Outbound>
    const privateKey: Option<string>
    const decrypt: Decryptor
    const connected: bool

    /**
     * At most one conversation is selected, and the socket is subscribed to the
     * selected group and to no other.
     */
    ghost predicate Valid()
      reads this
    {
      (recipient.None? || selectedGroup.None?)
      && Joined(outbox) == Subscription(connected, selectedGroup)
    }

    constructor (privateKey: Option<string>, decrypt: Decryptor, connected: bool)
      ensures Valid()
      ensures this.privateKey == privateKey && this.decrypt == decrypt && this.connected == connected
      ensures users == [] && messages == [] && draft == "" && recipient == None && selectedGroup == None
      ensures groups == [] && currentUserId == None && selectedFile == None && notifications == []
      ensures editingGroupId == None && outbox == []
    {
      this.privateKey := privateKey;
      this.decrypt := decrypt;
      this.connected := connected;
      users, messages, draft, recipient, selectedGroup := [], [], "", None, None;
      groups, currentUserId, selectedFile, notifications := [], None, None, [];
      editingGroupId, outbox := None, [];
    }

    /** The server's `userId` event. */
    method ReceiveUserId(id: string)
      requires Valid()
      modifies this`currentUserId
      ensures Valid() && currentUserId == Some(id)
    {
      currentUserId := Some(id);
    }

    /** The users fetch; a failed request (None) changes nothing. */
    method LoadUsers(fetched: Option<seq<User>>)
      requires Valid()
      modifies this`users
      ensures Valid()
      ensures users == if fetched.Some? then fetched.value else old(users)
    {
      if fetched.Some? {
        users := fetched.value;
      }
    }

    /** The groups fetch; a failed request (None) changes nothing. */
    method LoadGroups(fetched: Option<seq<Group>>)
      requires Valid()
      modifies this`groups
      ensures Valid()
      ensures groups == if fetched.Some? then fetched.value else old(groups)
    {
      if fetched.Some? {
        groups := fetched.value;
      }
    }

    /**
     * The `chatMessage` handler: earlier copies of the record are replaced by the
     * rendered record at the end of the list, and a notice is queued when someone
     * else sent it.
     */
    method ReceiveMessage(w: Wire, now: int)
      requires Valid()
      modifies this`messages, this`notifications
      ensures Valid()
      ensures messages == Merge(old(messages), Received(w, currentUserId, privateKey, decrypt))
      ensures currentUserId == Some(RefId(w.sender)) ==> notifications == old(notifications)
      ensures currentUserId != Some(RefId(w.sender)) ==>
        notifications == old(notifications)
          + [Notification(now, ArrivalNotice(w.sender, Render(w, currentUserId, privateKey, decrypt)))]
    {
      var entry := Received(w, currentUserId, privateKey, decrypt);
      messages := Merge(messages, entry);
      if currentUserId != Some(RefId(w.sender)) {
        notifications := notifications + [Notification(now, ArrivalNotice(w.sender, entry.content))];
      }
    }

    /**
     * The history fetch for the selected conversation: once a conversation is
     * selected and the viewer known, the fetched records replace the list.
     */
    method LoadHistory(fetched: Option<seq<Wire>>)
      requires Valid()
      modifies this`messages
      ensures Valid()
      ensures (Present(recipient) || Present(selectedGroup)) && Present(currentUserId) && fetched.Some? ==>
        messages == ProcessHistory(fetched.value, currentUserId, privateKey, decrypt)
      ensures !((Present(recipient) || Present(selectedGroup)) && Present(currentUserId) && fetched.Some?) ==>
        messages == old(messages)
    {
      if (Present(recipient) || Present(selectedGroup)) && Present(currentUserId) && fetched.Some? {
        messages := ProcessHistory(fetched.value, currentUserId, privateKey, decrypt);
      }
    }

    /** Typing in the message input. */
    method SetDraft(text: string)
      requires Valid()
      modifies this`draft
      ensures Valid() && draft == text
    {
      draft := text;
    }

    /** `handleFileChange`: a picked file is selected and announced in the draft. */
    method SelectFile(file: Option<LocalFile>)
      requires Valid()
      modifies this`selectedFile, this`draft
      ensures Valid()
      ensures file.Some? ==> selectedFile == file && draft == "Uploading: " + file.value.name
      ensures file.None? ==> selectedFile == old(selectedFile) && draft == old(draft)
    {
      if file.Some? {
        selectedFile := file;
        draft := "Uploading: " + file.value.name;
      }
    }

    /** A send is attempted only on a live socket with a non-blank draft or a file. */
    predicate Ready()
      reads this
    {
      connected && !(Trim(draft) == "" && selectedFile.None?)
    }

    /** The selected group does not let the viewer send. */
    predicate Denied()
      reads this
    {
      Present(selectedGroup) && !CanSendInGroup(groups, currentUserId, selectedGroup.value)
    }

    /**
     * `sendMessage`. `uploaded` is the upload endpoint's answer for a selected file
     * (None when the upload fails); `tempId` and `now` stand for `Date.now()`.
     * A denied send queues one notice and nothing else; a successful one emits the
     * payload, appends its Pending copy with the same `tempId` and clears the draft
     * and the file.
     */
    method SendMessage(tempId: string, now: int, uploaded: Option<FileInfo>)
      requires Valid()
      modifies this`messages, this`notifications, this`outbox, this`draft, this`selectedFile
      ensures Valid()
      ensures !old(Ready()) ==> unchanged(this)
      ensures old(Ready()) && old(Denied()) ==>
        notifications == old(notifications) + [Notification(now, PermissionDeniedText)]
        && messages == old(messages) && outbox == old(outbox)
        && draft == old(draft) && selectedFile == old(selectedFile)
      ensures old(Ready()) && !old(Denied()) && old(selectedFile).Some? && uploaded.None? ==> unchanged(this)
      ensures old(Ready()) && !old(Denied()) && (old(selectedFile).None? || uploaded.Some?) ==>
        var body := if old(selectedFile).Some? then Attachment(uploaded.value) else Text(old(draft));
        messages == old(messages) + [Optimistic(currentUserId, recipient, selectedGroup, tempId, body)]
        && outbox == old(outbox) + [ChatMessage(recipient, selectedGroup, body, tempId)]
        && notifications == old(notifications) && draft == "" && selectedFile == None
    {
      if !Ready() {
        return;
      }
      if Denied() {
        notifications := notifications + [Notification(now, PermissionDeniedText)];
        return;
      }
      var body;
      if selectedFile.Some? {
        if uploaded.None? {
          return;
        }
        body := Attachment(uploaded.value);
      } else {
        body := Text(draft);
      }
      Dispatch(body, tempId);
    }

    /**
     * The successful tail of `sendMessage`: emit the payload, append its Pending
     * copy with the same `tempId`, clear the draft and the file.
     */
    method Dispatch(body: Content, tempId: string)
      requires Valid()
      modifies this`messages, this`outbox, this`draft, this`selectedFile
      ensures Valid()
      ensures messages == old(messages) + [Optimistic(currentUserId, recipient, selectedGroup, tempId, body)]
      ensures outbox == old(outbox) + [ChatMessage(recipient, selectedGroup, body, tempId)]
      ensures draft == "" && selectedFile == None
    {
      JoinedIgnoresChat(outbox, ChatMessage(recipient, selectedGroup, body, tempId));
      outbox := outbox + [ChatMessage(recipient, selectedGroup, body, tempId)];
      messages := messages + [Optimistic(currentUserId, recipient, selectedGroup, tempId, body)];
      draft := "";
      selectedFile := None;
    }

    /** `createGroup`: a named group returned by the server is appended; a failed request changes nothing. */
    method CreateGroup(name: Option<string>, created: Option<Group>)
      requires Valid()
      modifies this`groups
      ensures Valid()
      ensures groups == if Present(name) && created.Some? then old(groups) + [created.value] else old(groups)
    {
      if Present(name) && created.Some? {
        groups := groups + [created.value];
      }
    }

    /**
     * `addMemberToGroup`: the server's updated group replaces the group with that
     * id; a failed request queues a notice.
     */
    method AddMemberToGroup(groupId: string, userId: string, updated: Option<Group>, now: int)
      requires Valid()
      modifies this`groups, this`notifications
      ensures Valid()
      ensures userId == "" || groupId == "" ==> groups == old(groups) && notifications == old(notifications)
      ensures userId != "" && groupId != "" && updated.Some? ==>
        groups == ReplaceGroup(old(groups), groupId, updated.value) && notifications == old(notifications)
      ensures userId != "" && groupId != "" && updated.None? ==>
        groups == old(groups) && notifications == old(notifications) + [Notification(now, AddMemberFailedText)]
    {
      if userId == "" || groupId == "" {
        return;
      }
      if updated.Some? {
        groups := ReplaceGroup(groups, groupId, updated.value);
      } else {
        notifications := notifications + [Notification(now, AddMemberFailedText)];
      }
    }

    /**
     * `updateGroupPermissions`: the server's updated group replaces the group with
     * that id; a failed request queues a notice.
     */
    method UpdateGroupPermissions(groupId: string, userId: string, updated: Option<Group>, now: int)
      requires Valid()
      modifies this`groups, this`notifications
      ensures Valid()
      ensures groupId == "" || userId == "" ==> groups == old(groups) && notifications == old(notifications)
      ensures groupId != "" && userId != "" && updated.Some? ==>
        groups == ReplaceGroup(old(groups), groupId, updated.value) && notifications == old(notifications)
      ensures groupId != "" && userId != "" && updated.None? ==>
        groups == old(groups) && notifications == old(notifications) + [Notification(now, UpdatePermissionsFailedText)]
    {
      if groupId == "" || userId == "" {
        return;
      }
      if updated.Some? {
        groups := ReplaceGroup(groups, groupId, updated.value);
      } else {
        notifications := notifications + [Notification(now, UpdatePermissionsFailedText)];
      }
    }

    /** `toggleEditGroup`: open the panel of this group, or close it if it is already open. */
    method ToggleEditGroup(groupId: string)
      requires Valid()
      modifies this`editingGroupId
      ensures Valid()
      ensures editingGroupId == Toggled(old(editingGroupId), groupId)
      ensures old(editingGroupId) == Some(groupId) <==> editingGroupId == None
    {
      editingGroupId := if editingGroupId == Some(groupId) then None else Some(groupId);
    }

    /** A click on a user: a private conversation, no group, no editing panel. */
    method SelectUser(userId: string)
      requires Valid()
      modifies this`recipient, this`selectedGroup, this`editingGroupId, this`outbox
      ensures Valid()
      ensures recipient == Some(userId) && selectedGroup == None && editingGroupId == None
      ensures outbox == old(outbox) + GroupSwitch(connected, old(selectedGroup), None)
    {
      var switch := GroupSwitch(connected, selectedGroup, None);
      JoinedAppend(outbox, switch);
      SwitchMovesSubscription(connected, selectedGroup, None);
      outbox := outbox + switch;
      recipient, selectedGroup, editingGroupId := Some(userId), None, None;
    }

    /** A click on a group: a group conversation, no peer. */
    method SelectGroup(groupId: string)
      requires Valid()
      modifies this`recipient, this`selectedGroup, this`outbox
      ensures Valid()
      ensures selectedGroup == Some(groupId) && recipient == None
      ensures outbox == old(outbox) + GroupSwitch(connected, old(selectedGroup), Some(groupId))
    {
      var switch := GroupSwitch(connected, selectedGroup, Some(groupId));
      JoinedAppend(outbox, switch);
      SwitchMovesSubscription(connected, selectedGroup, Some(groupId));
      outbox := outbox + switch;
      selectedGroup, recipient := Some(groupId), None;
    }

    /** Closing a notice, or its five-second expiry: every notice with that id goes. */
    method DismissNotification(id: int)
      requires Valid()
      modifies this`notifications
      ensures Valid()
      ensures notifications == Filter(old(notifications), NotId(id))
      ensures forall n :: n in notifications <==> n in old(notifications) && n.id != id
    {
      notifications := Filter(notifications, NotId(id));
    }
  }

  /** Delivering the same broadcast twice leaves the list as one delivery does. */
  method ReplayBroadcast(c: ChatClient, w: Wire, now1: int, now2: int)
    requires c.Valid()
    modifies c`messages, c`notifications
    ensures c.Valid()
    ensures c.currentUserId == old(c.currentUserId)
    ensures c.messages == Merge(old(c.messages), Received(w, old(c.currentUserId), c.privateKey, c.decrypt))
  {
    c.ReceiveMessage(w, now1);
    c.ReceiveMessage(w, now2);
    MergeIdempotent(old(c.messages), Received(w, c.currentUserId, c.privateKey, c.decrypt));
  }

  /**
   * A text send followed by the server's echo of it: the list ends with exactly one
   * copy of the message, the confirmed one, showing the typed text.
   */
  method SendThenEcho(c: ChatClient, tempId: string, now: int, w: Wire, later: int)
    requires c.Valid() && c.Ready() && !c.Denied() && c.selectedFile.None?
    requires c.currentUserId.Some? && c.currentUserId.value != ""
    requires w.tempId == Some(tempId) && w.id.Some? && w.file.None?
    requires RefId(w.sender) == c.currentUserId.value && w.content == Str(c.draft)
    requires forall i :: 0 <= i < |c.messages| ==> c.messages[i].tempId != Some(tempId) && c.messages[i].id != w.id
    modifies c`messages, c`notifications, c`outbox, c`draft, c`selectedFile
    ensures c.Valid()
    ensures c.currentUserId == old(c.currentUserId)
    ensures c.messages == old(c.messages) + [Received(w, old(c.currentUserId), c.privateKey, c.decrypt)]
    ensures c.messages[|c.messages| - 1].content == Text(old(c.draft))
    ensures c.draft == ""
  {
    var text := c.draft;
    c.SendMessage(tempId, now, None);
    EchoConfirmsPending(old(c.messages), c.currentUserId.value, c.recipient, c.selectedGroup,
                        tempId, text, w, c.privateKey, c.decrypt);
    c.ReceiveMessage(w, later);
  }
}
