/**
 * Reconciliation of the `messages` list with an incoming broadcast, and the
 * filter that picks the entries shown for the selected conversation.
 */
module Reconcile {
  import opened JsValues
  import opened Seqs
  import opened Messages

  /**
   * Whether entry `m` is an earlier copy of the incoming entry `e`: the same
   * `tempId` or the same `_id`, where two absent values count as equal
   * (`undefined === undefined`).
   */
  predicate Clashes(m: Entry, e: Entry) {
    m.tempId == e.tempId || m.id == e.id
  }

  function Survives(e: Entry): Entry -> bool {
    (m: Entry) => !Clashes(m, e)
  }

  /**
   * `[...prev.filter(m => m.tempId !== msg.tempId && m._id !== msg._id), { ...msg, content }]`:
   * every earlier copy is dropped, the rest keep their order, the incoming entry goes last.
   */
  function Merge(xs: seq<Entry>, e: Entry): (r: seq<Entry>)
    ensures |r| <= |xs| + 1
    ensures r != [] && r[|r| - 1] == e
    ensures forall m :: m in r[..|r| - 1] <==> m in xs && !Clashes(m, e)
    ensures forall i :: 0 <= i < |r| - 1 ==> r[i].tempId != e.tempId && r[i].id != e.id
  {
    var kept := Filter(xs, Survives(e));
    assert forall i :: 0 <= i < |kept| ==> kept[i] in kept;
    kept + [e]
  }

  /** Replaying a broadcast leaves the list as the first delivery left it. */
  lemma MergeIdempotent(xs: seq<Entry>, e: Entry)
    ensures Merge(Merge(xs, e), e) == Merge(xs, e)
  {
    var p := Survives(e);
    var kept := Filter(xs, p);
    FilterAppend(kept, [e], p);
    FilterIdempotent(xs, p);
    assert Filter([e], p) == [];
  }

  /** A broadcast with no earlier copy (Remote) is appended. */
  lemma MergeRemote(xs: seq<Entry>, e: Entry)
    requires forall i :: 0 <= i < |xs| ==> !Clashes(xs[i], e)
    ensures Merge(xs, e) == xs + [e]
  {
    FilterKeepsAll(xs, Survives(e));
  }

  /**
   * A broadcast that confirms one Pending copy removes that copy and adds itself at
   * the end: the other entries keep their order and the count is unchanged.
   */
  lemma MergeConfirms(pre: seq<Entry>, pending: Entry, post: seq<Entry>, e: Entry)
    requires Clashes(pending, e)
    requires forall i :: 0 <= i < |pre| ==> !Clashes(pre[i], e)
    requires forall i :: 0 <= i < |post| ==> !Clashes(post[i], e)
    ensures Merge(pre + [pending] + post, e) == pre + post + [e]
  {
    var p := Survives(e);
    FilterAppend(pre + [pending], post, p);
    FilterAppend(pre, [pending], p);
    FilterKeepsAll(pre, p);
    FilterKeepsAll(post, p);
    assert Filter([pending], p) == [];
    assert Filter(pre + [pending], p) == pre;
    assert Filter(pre + [pending] + post, p) == pre + post;
  }

  /**
   * A broadcast without a `tempId` removes every earlier entry that lacks one too:
   * a history record without `tempId` does not survive it.
   */
  lemma UntaggedBroadcastDropsUntagged(h: Entry, e: Entry)
    requires h.tempId.None? && e.tempId.None? && h.id != e.id
    ensures Merge([h], e) == [e]
  {
    assert Filter([h], Survives(e)) == [];
  }

  // ---------------------------------------------------------------------------
  // The conversation view

  /** `msg.sender._id`: the `_id` of a populated sender, undefined for a raw id. */
  function SenderIdField(sender: Value): Value {
    if sender.Obj? then sender.id else Undefined
  }

  /** `v === currentUserId`, with null standing for an unknown viewer. */
  predicate IsViewerId(v: Value, viewer: Option<string>) {
    v == OfOption(viewer)
  }

  /**
   * The test at the head of the message list: a private message is shown when it
   * is addressed to the selected peer or to the viewer, or the viewer sent it; a
   * group message when it belongs to the selected group.
   */
  predicate Visible(m: Entry, recipient: Option<string>, selectedGroup: Option<string>, viewer: Option<string>) {
    (Present(m.recipient) &&
      (m.recipient == recipient || m.recipient == viewer || IsViewerId(SenderIdField(m.sender), viewer)))
    || (Present(m.group) && m.group == selectedGroup)
  }

  function VisibleIn(recipient: Option<string>, selectedGroup: Option<string>, viewer: Option<string>): Entry -> bool {
    (m: Entry) => Visible(m, recipient, selectedGroup, viewer)
  }

  /** The entries listed for the selected conversation: exactly the visible ones, in list order. */
  function View(ms: seq<Entry>, recipient: Option<string>, selectedGroup: Option<string>, viewer: Option<string>): (r: seq<Entry>)
    ensures |r| <= |ms|
    ensures forall m :: m in r <==> m in ms && Visible(m, recipient, selectedGroup, viewer)
  {
    Filter(ms, VisibleIn(recipient, selectedGroup, viewer))
  }

  /**
   * With a group selected and no peer, the only non-private entries shown are that
   * group's messages, and every one of them is shown.
   */
  lemma GroupViewShowsOnlyThatGroup(ms: seq<Entry>, g: string, viewer: Option<string>, m: Entry)
    requires g != ""
    ensures m in View(ms, None, Some(g), viewer) && !Present(m.recipient) ==> m.group == Some(g)
    ensures m in ms && m.group == Some(g) ==> m in View(ms, None, Some(g), viewer)
  {
  }

  /** A private message addressed to the viewer is shown whatever conversation is selected. */
  lemma PrivateToViewerAlwaysShown(ms: seq<Entry>, m: Entry, recipient: Option<string>, selectedGroup: Option<string>, viewer: string)
    requires m in ms && viewer != "" && m.recipient == Some(viewer)
    ensures m in View(ms, recipient, selectedGroup, Some(viewer))
  {
  }

  /** The view of a merged list: the surviving entries' view, then the incoming entry if it is shown. */
  lemma ViewAfterMerge(xs: seq<Entry>, e: Entry, recipient: Option<string>, selectedGroup: Option<string>, viewer: Option<string>)
    ensures View(Merge(xs, e), recipient, selectedGroup, viewer)
         == View(Filter(xs, Survives(e)), recipient, selectedGroup, viewer)
            + (if Visible(e, recipient, selectedGroup, viewer) then [e] else [])
  {
    FilterAppend(Filter(xs, Survives(e)), [e], VisibleIn(recipient, selectedGroup, viewer));
  }

  /** An optimistic copy sent to the selected peer or group is shown in that conversation. */
  lemma OwnSendShown(viewer: Option<string>, recipient: Option<string>, selectedGroup: Option<string>,
                     tempId: string, body: Content)
    requires Present(recipient) || Present(selectedGroup)
    ensures Visible(Optimistic(viewer, recipient, selectedGroup, tempId, body), recipient, selectedGroup, viewer)
  {
  }

  /**
   * The own-echo round trip: after the Pending copy of a text send, the server's echo
   * with the same `tempId` leaves exactly one copy, at the end, showing the typed
   * text whatever the key and the cipher.
   */
  lemma EchoConfirmsPending(xs: seq<Entry>, viewer: string, recipient: Option<string>, selectedGroup: Option<string>,
                            tempId: string, text: string, w: Wire, key: Option<string>, decrypt: Decryptor)
    requires viewer != ""
    requires w.tempId == Some(tempId) && w.id.Some? && w.file.None?
    requires RefId(w.sender) == viewer && w.content == Str(text)
    requires forall i :: 0 <= i < |xs| ==> xs[i].tempId != Some(tempId) && xs[i].id != w.id
    ensures var e := Received(w, Some(viewer), key, decrypt);
      Merge(xs + [Optimistic(Some(viewer), recipient, selectedGroup, tempId, Text(text))], e) == xs + [e]
      && e.content == Text(text)
  {
    var e := Received(w, Some(viewer), key, decrypt);
    var pending := Optimistic(Some(viewer), recipient, selectedGroup, tempId, Text(text));
    MergeConfirms(xs, pending, [], e);
    assert xs + [pending] + [] == xs + [pending];
  }
}
