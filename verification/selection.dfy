/** Which comments and checklist items belong to a card. */
module Selection {

  import opened Wrappers
  import opened Records
  import opened Seqs

  /** The comments whose `cardId` is the card's id, in export order. */
  function CommentsOn(comments: seq<Comment>, cardId: string): (r: seq<Comment>)
    ensures forall i :: 0 <= i < |r| ==> r[i] in comments && r[i].cardId == cardId
    ensures forall i :: 0 <= i < |comments| && comments[i].cardId == cardId ==> comments[i] in r
  {
    Filter(comments, (c: Comment) => c.cardId == cardId)
  }

  /** The `next(...)` generator: the first checklist whose `cardId` is the
      card's id, or `None`. */
  function FirstChecklist(checklists: seq<Checklist>, cardId: string): (r: Option<Checklist>)
    ensures r.None? <==> forall i :: 0 <= i < |checklists| ==> checklists[i].cardId != cardId
    ensures r.Some? ==>
              exists i :: 0 <= i < |checklists| && checklists[i] == r.value && r.value.cardId == cardId
                && forall k :: 0 <= k < i ==> checklists[k].cardId != cardId
    decreases |checklists|
  {
    if checklists == [] then None
    else if checklists[0].cardId == cardId then Some(checklists[0])
    else
      var r := FirstChecklist(checklists[1..], cardId);
      assert forall k :: 0 <= k < |checklists[1..]| ==> checklists[1..][k] == checklists[k + 1];
      r
  }

  /** The items of one checklist, in export order. */
  function ItemsOf(items: seq<ChecklistItem>, checklistId: string): (r: seq<ChecklistItem>)
    ensures forall i :: 0 <= i < |r| ==> r[i] in items && r[i].checklistId == checklistId
    ensures forall i :: 0 <= i < |items| && items[i].checklistId == checklistId ==> items[i] in r
  {
    Filter(items, (it: ChecklistItem) => it.checklistId == checklistId)
  }

  /** The items that become subtasks of a card: those of its first checklist only,
      and none at all for a card without a checklist. */
  function SubtaskItems(board: Board, cardId: string): (r: seq<ChecklistItem>)
    ensures (forall k :: 0 <= k < |board.checklists| ==> board.checklists[k].cardId != cardId) ==> r == []
    ensures forall i :: 0 <= i < |r| ==> r[i] in board.items
  {
    match FirstChecklist(board.checklists, cardId)
    case None => []
    case Some(checklist) => ItemsOf(board.items, checklist.id)
  }

  /** When a card has two checklists (with distinct ids, as Wekan assigns them),
      no item of the later one ever becomes a subtask. */
  lemma LaterChecklistIgnored(board: Board, cardId: string, first: nat, later: nat, item: ChecklistItem)
    requires first < later < |board.checklists|
    requires board.checklists[first].cardId == cardId && board.checklists[later].cardId == cardId
    requires forall a, b :: 0 <= a < b < |board.checklists| ==> board.checklists[a].id != board.checklists[b].id
    requires item.checklistId == board.checklists[later].id
    ensures item !in SubtaskItems(board, cardId)
  {
    var chosen := FirstChecklist(board.checklists, cardId);
    var j :| 0 <= j < |board.checklists| && board.checklists[j] == chosen.value
               && forall k :: 0 <= k < j ==> board.checklists[k].cardId != cardId;
    assert j <= first;
    assert chosen.value.id != item.checklistId;
  }

  /** Every item of the first checklist of a card becomes a subtask, in export order. */
  lemma FirstChecklistItemsKept(board: Board, cardId: string, first: nat)
    requires first < |board.checklists| && board.checklists[first].cardId == cardId
    requires forall k :: 0 <= k < first ==> board.checklists[k].cardId != cardId
    ensures SubtaskItems(board, cardId) == ItemsOf(board.items, board.checklists[first].id)
  {
    var chosen := FirstChecklist(board.checklists, cardId);
    var j :| 0 <= j < |board.checklists| && board.checklists[j] == chosen.value
               && forall k :: 0 <= k < j ==> board.checklists[k].cardId != cardId;
    assert j == first;
  }
}
