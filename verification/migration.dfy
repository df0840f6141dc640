/** The translation driver: the format check, status resolution and the card
    loop with its nested comment and checklist-item loops. A run is described
    as the list of steps the script would take (a request to send, or the
    failure that aborts it) cut off at the first failure. */
module Migration {

  import opened Wrappers
  import opened Records
  import opened Seqs
  import opened Text
  import opened Statuses
  import opened Selection
  import opened Payloads

  /** One request the script is about to send, or the failure that stops it first. */
  type Step = Result<Request, Failure>

  /** What a run did: the requests sent, in order, and the failure that ended it,
      if any. Requests sent before a failure stay sent: there is no rollback. */
  datatype Trace = Trace(sent: seq<Request>, failure: Option<Failure>)

  /** Carry out steps in order until the first failure. */
  function Sequence(steps: seq<Step>): Trace
    decreases |steps|
  {
    if steps == [] then Trace([], None)
    else match steps[0]
      case Err(e) => Trace([], Some(e))
      case Ok(r) =>
        var rest := Sequence(steps[1..]);
        Trace([r] + rest.sent, rest.failure)
  }

  /** `Sequence` sends the requests of the steps before the first failure, in
      order, and stops with that failure; with no failure it sends them all. */
  lemma {:induction false} SequenceSendsUntilFailure(steps: seq<Step>)
    ensures var t := Sequence(steps);
            && |t.sent| <= |steps|
            && (forall i :: 0 <= i < |t.sent| ==> steps[i] == Ok(t.sent[i]))
            && (t.failure.None? ==> |t.sent| == |steps|)
            && (t.failure.Some? ==> |t.sent| < |steps| && steps[|t.sent|] == Err(t.failure.value))
    decreases |steps|
  {
    if steps != [] && steps[0].Ok? {
      SequenceSendsUntilFailure(steps[1..]);
    }
  }

  /** Run `u` after `t`, unless `t` already failed. */
  function Then(t: Trace, u: Trace): Trace {
    if t.failure.Some? then t else Trace(t.sent + u.sent, u.failure)
  }

  lemma {:induction false} SequenceAppend(xs: seq<Step>, ys: seq<Step>)
    ensures Sequence(xs + ys) == Then(Sequence(xs), Sequence(ys))
    decreases |xs|
  {
    if xs == [] {
      assert xs + ys == ys;
    } else {
      assert (xs + ys)[0] == xs[0];
      assert (xs + ys)[1..] == xs[1..] + ys;
      SequenceAppend(xs[1..], ys);
    }
  }

  /** Once a run has failed, further steps change nothing. */
  lemma SequenceStopped(xs: seq<Step>, ys: seq<Step>)
    requires Sequence(xs).failure.Some?
    ensures Sequence(xs + ys) == Sequence(xs)
  {
    SequenceAppend(xs, ys);
  }

  function CardStep(card: Card, statuses: map<string, string>, project: string): Step {
    match CardPayload(card, statuses)
    case Err(e) => Err(e)
    case Ok(wp) => Ok(Post(WorkPackagesUrl(project), WorkPackageBody(wp)))
  }

  /** One more element of a selected-and-transformed list: a skipped element
      changes nothing, a kept one sends its request or fails. */
  lemma SelectedRunNext<T>(xs: seq<T>, j: nat, keep: T -> bool, f: T -> Step, sent: seq<Request>)
    requires j < |xs|
    requires Sequence(FilterMap(xs[..j], keep, f)) == Trace(sent, None)
    ensures Sequence(FilterMap(xs[..j + 1], keep, f))
            == if !keep(xs[j]) then Trace(sent, None)
               else if f(xs[j]).Ok? then Trace(sent + [f(xs[j]).value], None)
               else Trace(sent, Some(f(xs[j]).error))
  {
    var last: seq<Step> := if keep(xs[j]) then [f(xs[j])] else [];
    FilterMapSnoc(xs, j, keep, f);
    SequenceAppend(FilterMap(xs[..j], keep, f), last);
    if keep(xs[j]) {
      assert last[1..] == [];
    } else {
      assert sent + [] == sent;
    }
  }

  /** Once the first `j` elements have failed, the rest of the list adds nothing. */
  lemma SelectedRunStops<T>(xs: seq<T>, j: nat, keep: T -> bool, f: T -> Step)
    requires j <= |xs|
    requires Sequence(FilterMap(xs[..j], keep, f)).failure.Some?
    ensures Sequence(FilterMap(xs, keep, f)) == Sequence(FilterMap(xs[..j], keep, f))
  {
    assert xs == xs[..j] + xs[j..];
    FilterMapAppend(xs[..j], xs[j..], keep, f);
    SequenceStopped(FilterMap(xs[..j], keep, f), FilterMap(xs[j..], keep, f));
  }

  /** One activity request per comment on the card, in export order. */
  function CommentSteps(comments: seq<Comment>, cardId: string, pkgid: string): seq<Step> {
    FilterMap(comments, (c: Comment) => c.cardId == cardId, (c: Comment) => CommentStep(c, pkgid))
  }

  function SubtaskStep(item: ChecklistItem, opStatuses: map<string, string>, project: string, pkgid: string): Step {
    match SubtaskPayload(item, opStatuses, pkgid)
    case Err(e) => Err(e)
    case Ok(wp) => Ok(Post(WorkPackagesUrl(project), WorkPackageBody(wp)))
  }

  /** One work-package request per item of a checklist, in export order. */
  function SubtaskSteps(items: seq<ChecklistItem>, checklistId: string, opStatuses: map<string, string>,
                        project: string, pkgid: string): seq<Step>
  {
    FilterMap(items, (it: ChecklistItem) => it.checklistId == checklistId,
              (it: ChecklistItem) => SubtaskStep(it, opStatuses, project, pkgid))
  }

  /** Subtask requests for the items of the card's first checklist only. */
  function ChecklistSteps(board: Board, cardId: string, opStatuses: map<string, string>,
                          project: string, pkgid: string): seq<Step>
  {
    match FirstChecklist(board.checklists, cardId)
    case None => []
    case Some(checklist) => SubtaskSteps(board.items, checklist.id, opStatuses, project, pkgid)
  }

  /** The comment requests are one per comment selected for the card, in order. */
  lemma CommentStepsOfSelected(comments: seq<Comment>, cardId: string, pkgid: string)
    ensures CommentSteps(comments, cardId, pkgid) == Map(CommentsOn(comments, cardId), (c: Comment) => CommentStep(c, pkgid))
  {
    FilterMapIsMapFilter(comments, (c: Comment) => c.cardId == cardId, (c: Comment) => CommentStep(c, pkgid));
  }

  /** The subtask requests are one per item of the card's first checklist, in order. */
  lemma ChecklistStepsOfSelected(board: Board, cardId: string, opStatuses: map<string, string>,
                                 project: string, pkgid: string)
    ensures ChecklistSteps(board, cardId, opStatuses, project, pkgid)
            == Map(SubtaskItems(board, cardId), (it: ChecklistItem) => SubtaskStep(it, opStatuses, project, pkgid))
  {
    match FirstChecklist(board.checklists, cardId)
    case None =>
    case Some(checklist) =>
      FilterMapIsMapFilter(board.items, (it: ChecklistItem) => it.checklistId == checklist.id,
                           (it: ChecklistItem) => SubtaskStep(it, opStatuses, project, pkgid));
  }

  /** Everything done for one card whose work package gets the id `pkgid`. */
  function CardSteps(board: Board, opStatuses: map<string, string>, statuses: map<string, string>,
                     project: string, card: Card, pkgid: string): seq<Step>
  {
    [CardStep(card, statuses, project)]
      + CommentSteps(board.comments, card.id, pkgid)
      + ChecklistSteps(board, card.id, opStatuses, project, pkgid)
  }

  /** The steps for the first `n` cards; `idOf(i)` is the id the server gives
      the work package of card `i`. */
  function CardsSteps(board: Board, opStatuses: map<string, string>, statuses: map<string, string>,
                      project: string, idOf: nat -> string, n: nat): seq<Step>
    requires n <= |board.cards|
  {
    if n == 0 then []
    else
      CardsSteps(board, opStatuses, statuses, project, idOf, n - 1)
        + CardSteps(board, opStatuses, statuses, project, board.cards[n - 1], idOf(n - 1))
  }

  /** All steps of a run over `board`, given the statuses `GET /statuses` returns. */
  function Steps(board: Board, fetched: seq<OpStatus>, project: string, idOf: nat -> string): seq<Step> {
    if board.format != FORMAT then [Err(InvalidFormat)]
    else
      var opStatuses := StatusTable(fetched);
      match ListStatuses(board.lists, opStatuses)
      case Err(e) => [Ok(Get(STATUSES_URL)), Err(e)]
      case Ok(statuses) =>
        [Ok(Get(STATUSES_URL))] + CardsSteps(board, opStatuses, statuses, project, idOf, |board.cards|)
  }

  function Run(board: Board, fetched: seq<OpStatus>, project: string, idOf: nat -> string): Trace {
    Sequence(Steps(board, fetched, project, idOf))
  }

  /** An export with another format marker aborts before any request. */
  lemma WrongFormatSendsNothing(board: Board, fetched: seq<OpStatus>, project: string, idOf: nat -> string)
    requires board.format != FORMAT
    ensures Run(board, fetched, project, idOf) == Trace([], Some(InvalidFormat))
  {
    assert Steps(board, fetched, project, idOf)[0] == Err(InvalidFormat);
  }

  /** A list that does not resolve to a status aborts the run after the status
      fetch and before any work package is created. */
  lemma UnresolvedStatusStopsRun(board: Board, fetched: seq<OpStatus>, project: string, idOf: nat -> string)
    requires board.format == FORMAT
    requires ListStatuses(board.lists, StatusTable(fetched)).Err?
    ensures Run(board, fetched, project, idOf)
            == Trace([Get(STATUSES_URL)], Some(ListStatuses(board.lists, StatusTable(fetched)).error))
  {
    var e := ListStatuses(board.lists, StatusTable(fetched)).error;
    var steps: seq<Step> := [Ok(Get(STATUSES_URL)), Err(e)];
    assert Steps(board, fetched, project, idOf) == steps;
    assert steps[1..] == [Err(e)];
    assert Sequence(steps[1..]) == Trace([], Some(e));
  }

  // ----- The imperative driver -----

  /** Build `work_project` and add the optional members one by one. */
  method BuildCardPayload(card: Card, statuses: map<string, string>) returns (r: Result<WorkPackage, Failure>)
    ensures r == CardPayload(card, statuses)
  {
    if card.listId !in statuses {
      return Err(UnknownListId(card.listId));
    }
    var workPackage := WorkPackage(
      subject := card.title,
      startDate := Some(Prefix(card.createdAt, 10)),
      description := None,
      dueDate := None,
      status := statuses[card.listId],
      version := Some(VERSION),
      assignee := None,
      parent := None);
    match card.description {
      case Null =>
        return Err(DescriptionNotText(card.id));
      case Str(text) =>
        if |text| > 0 {
          workPackage := workPackage.(description := Some(text));
        }
      case Absent =>
    }
    if card.dueAt.Str? && card.dueAt.text != [] {
      workPackage := workPackage.(dueDate := Some(Prefix(card.dueAt.text, 10)));
    }
    if |card.members| > 0 {
      var assignee := card.members[0];
      if assignee in USER_MAP {
        workPackage := workPackage.(assignee := Some(USER_MAP[assignee]));
      }
    }
    return Ok(workPackage);
  }

  /** The comment loop for one card: skip other cards' comments, post the rest. */
  method PostComments(comments: seq<Comment>, cardId: string, pkgid: string)
    returns (sent: seq<Request>, failure: Option<Failure>)
    ensures Trace(sent, failure) == Sequence(CommentSteps(comments, cardId, pkgid))
  {
    sent, failure := [], None;
    var j := 0;
    assert comments[..0] == [];
    while j < |comments| && failure.None?
      invariant j <= |comments|
      invariant Sequence(CommentSteps(comments[..j], cardId, pkgid)) == Trace(sent, failure)
    {
      SelectedRunNext(comments, j, (c: Comment) => c.cardId == cardId, (c: Comment) => CommentStep(c, pkgid), sent);
      var comment := comments[j];
      if comment.cardId == cardId {
        var step := CommentStep(comment, pkgid);
        if step.Err? {
          failure := Some(step.error);
        } else {
          sent := sent + [step.value];
        }
      }
      j := j + 1;
    }
    if failure.Some? {
      SelectedRunStops(comments, j, (c: Comment) => c.cardId == cardId, (c: Comment) => CommentStep(c, pkgid));
    } else {
      assert comments[..j] == comments;
    }
  }

  /** The checklist-item loop for one checklist. */
  method PostSubtasks(items: seq<ChecklistItem>, checklistId: string, opStatuses: map<string, string>,
                      project: string, pkgid: string)
    returns (sent: seq<Request>, failure: Option<Failure>)
    ensures Trace(sent, failure) == Sequence(SubtaskSteps(items, checklistId, opStatuses, project, pkgid))
  {
    sent, failure := [], None;
    var j := 0;
    assert items[..0] == [];
    while j < |items| && failure.None?
      invariant j <= |items|
      invariant Sequence(SubtaskSteps(items[..j], checklistId, opStatuses, project, pkgid)) == Trace(sent, failure)
    {
      SelectedRunNext(items, j, (it: ChecklistItem) => it.checklistId == checklistId,
                      (it: ChecklistItem) => SubtaskStep(it, opStatuses, project, pkgid), sent);
      var item := items[j];
      if item.checklistId == checklistId {
        var subtask := SubtaskPayload(item, opStatuses, pkgid);
        if subtask.Err? {
          failure := Some(subtask.error);
        } else {
          sent := sent + [Post(WorkPackagesUrl(project), WorkPackageBody(subtask.value))];
        }
      }
      j := j + 1;
    }
    if failure.Some? {
      SelectedRunStops(items, j, (it: ChecklistItem) => it.checklistId == checklistId,
                       (it: ChecklistItem) => SubtaskStep(it, opStatuses, project, pkgid));
    } else {
      assert items[..j] == items;
    }
  }

  /** What is done for card `i`, whose work package gets the id `idOf(i)`. */
  function CardRun(board: Board, opStatuses: map<string, string>, statuses: map<string, string>,
                   project: string, idOf: nat -> string, i: nat): Trace
    requires i < |board.cards|
  {
    Sequence(CardSteps(board, opStatuses, statuses, project, board.cards[i], idOf(i)))
  }

  /** The run over the first `n` cards, card by card: each card's requests are
      sent only if every card before it succeeded. */
  function CardsRun(board: Board, opStatuses: map<string, string>, statuses: map<string, string>,
                    project: string, idOf: nat -> string, n: nat): Trace
    requires n <= |board.cards|
  {
    if n == 0 then Trace([], None)
    else
      Then(CardsRun(board, opStatuses, statuses, project, idOf, n - 1),
           CardRun(board, opStatuses, statuses, project, idOf, n - 1))
  }

  /** Running the cards one after another is running their concatenated steps. */
  lemma {:induction false} CardsRunSteps(board: Board, opStatuses: map<string, string>, statuses: map<string, string>,
                                         project: string, idOf: nat -> string, n: nat)
    requires n <= |board.cards|
    ensures CardsRun(board, opStatuses, statuses, project, idOf, n)
            == Sequence(CardsSteps(board, opStatuses, statuses, project, idOf, n))
  {
    if n > 0 {
      var before := CardsSteps(board, opStatuses, statuses, project, idOf, n - 1);
      var card := CardSteps(board, opStatuses, statuses, project, board.cards[n - 1], idOf(n - 1));
      CardsRunSteps(board, opStatuses, statuses, project, idOf, n - 1);
      SequenceAppend(before, card);
      assert CardsSteps(board, opStatuses, statuses, project, idOf, n) == before + card;
      assert CardsRun(board, opStatuses, statuses, project, idOf, n) == Then(Sequence(before), Sequence(card));
    }
  }

  /** Once the run over the first `i` cards has failed, the cards after them
      add nothing to it. */
  lemma {:induction false} StopsAfterFailure(board: Board, opStatuses: map<string, string>, statuses: map<string, string>,
                                             project: string, idOf: nat -> string, i: nat, n: nat)
    requires i <= n <= |board.cards|
    requires CardsRun(board, opStatuses, statuses, project, idOf, i).failure.Some?
    ensures CardsRun(board, opStatuses, statuses, project, idOf, n)
            == CardsRun(board, opStatuses, statuses, project, idOf, i)
    decreases n
  {
    if n > i {
      StopsAfterFailure(board, opStatuses, statuses, project, idOf, i, n - 1);
    }
  }

  /** When every list resolves, the run is the status fetch followed by the cards. */
  lemma ResolvedRun(board: Board, fetched: seq<OpStatus>, project: string, idOf: nat -> string)
    requires board.format == FORMAT
    requires ListStatuses(board.lists, StatusTable(fetched)).Ok?
    ensures var opStatuses := StatusTable(fetched);
            var cards := CardsRun(board, opStatuses, ListStatuses(board.lists, opStatuses).value,
                                  project, idOf, |board.cards|);
            Run(board, fetched, project, idOf) == Trace([Get(STATUSES_URL)] + cards.sent, cards.failure)
  {
    var opStatuses := StatusTable(fetched);
    var cards := CardsSteps(board, opStatuses, ListStatuses(board.lists, opStatuses).value,
                            project, idOf, |board.cards|);
    var prelude: seq<Step> := [Ok(Get(STATUSES_URL))];
    assert Steps(board, fetched, project, idOf) == prelude + cards;
    SequenceAppend(prelude, cards);
    assert prelude[1..] == [];
    CardsRunSteps(board, opStatuses, ListStatuses(board.lists, opStatuses).value, project, idOf, |board.cards|);
  }

  /** A card's run: its work package, then its comments, then its subtasks,
      each part only if the parts before it succeeded. */
  lemma CardStepsRun(board: Board, opStatuses: map<string, string>, statuses: map<string, string>,
                     project: string, card: Card, pkgid: string)
    ensures var cardStep := CardStep(card, statuses, project);
            Sequence(CardSteps(board, opStatuses, statuses, project, card, pkgid))
            == Then(Then(if cardStep.Ok? then Trace([cardStep.value], None) else Trace([], Some(cardStep.error)),
                         Sequence(CommentSteps(board.comments, card.id, pkgid))),
                    Sequence(ChecklistSteps(board, card.id, opStatuses, project, pkgid)))
  {
    var cardStep := CardStep(card, statuses, project);
    var commentSteps := CommentSteps(board.comments, card.id, pkgid);
    var checklistSteps := ChecklistSteps(board, card.id, opStatuses, project, pkgid);
    assert CardSteps(board, opStatuses, statuses, project, card, pkgid) == ([cardStep] + commentSteps) + checklistSteps;
    assert [cardStep][1..] == [];
    SequenceAppend([cardStep] + commentSteps, checklistSteps);
    SequenceAppend([cardStep], commentSteps);
  }

  /** One iteration of the card loop: create the card's work package, then its
      comments, then the subtasks of its first checklist. */
  method PostCard(board: Board, opStatuses: map<string, string>, statuses: map<string, string>,
                  project: string, card: Card, pkgid: string)
    returns (sent: seq<Request>, failure: Option<Failure>)
    ensures Trace(sent, failure) == Sequence(CardSteps(board, opStatuses, statuses, project, card, pkgid))
  {
    CardStepsRun(board, opStatuses, statuses, project, card, pkgid);
    var workPackage := BuildCardPayload(card, statuses);
    if workPackage.Err? {
      return [], Some(workPackage.error);
    }
    sent := [Post(WorkPackagesUrl(project), WorkPackageBody(workPackage.value))];

    var commentsSent, commentFailure := PostComments(board.comments, card.id, pkgid);
    sent := sent + commentsSent;
    if commentFailure.Some? {
      return sent, commentFailure;
    }

    var checklist := FirstChecklist(board.checklists, card.id);
    if checklist.Some? {
      var subtasksSent, subtaskFailure := PostSubtasks(board.items, checklist.value.id, opStatuses, project, pkgid);
      sent := sent + subtasksSent;
      failure := subtaskFailure;
    } else {
      assert sent + [] == sent;
      failure := None;
    }
  }

  /** Card `i` of the loop over the cards, after the cards before it sent
      `sent` without failing; returns everything sent so far. */
  method PostNextCard(board: Board, opStatuses: map<string, string>, statuses: map<string, string>,
                      project: string, idOf: nat -> string, i: nat, sent: seq<Request>)
    returns (sent': seq<Request>, failure: Option<Failure>)
    requires i < |board.cards|
    requires CardsRun(board, opStatuses, statuses, project, idOf, i) == Trace(sent, None)
    ensures CardsRun(board, opStatuses, statuses, project, idOf, i + 1) == Trace(sent', failure)
  {
    var cardSent, cardFailure := PostCard(board, opStatuses, statuses, project, board.cards[i], idOf(i));
    sent', failure := sent + cardSent, cardFailure;
  }

  /** The script's loop over the cards, in export order; card `i` is created as
      work package `idOf(i)`. */
  method PostCards(board: Board, opStatuses: map<string, string>, statuses: map<string, string>,
                   project: string, idOf: nat -> string)
    returns (sent: seq<Request>, failure: Option<Failure>)
    ensures Trace(sent, failure) == CardsRun(board, opStatuses, statuses, project, idOf, |board.cards|)
  {
    sent, failure := [], None;
    var i := 0;
    while i < |board.cards| && failure.None?
      invariant i <= |board.cards|
      invariant CardsRun(board, opStatuses, statuses, project, idOf, i) == Trace(sent, failure)
    {
      sent, failure := PostNextCard(board, opStatuses, statuses, project, idOf, i, sent);
      i := i + 1;
    }
    if failure.Some? {
      StopsAfterFailure(board, opStatuses, statuses, project, idOf, i, |board.cards|);
    }
  }

  /** The whole script: check the format, fetch and resolve the statuses, then
      migrate the cards. */
  method Migrate(board: Board, fetched: seq<OpStatus>, project: string, idOf: nat -> string)
    returns (sent: seq<Request>, failure: Option<Failure>)
    ensures Trace(sent, failure) == Run(board, fetched, project, idOf)
  {
    if board.format != FORMAT {
      WrongFormatSendsNothing(board, fetched, project, idOf);
      return [], Some(InvalidFormat);
    }
    var opStatuses := StatusTable(fetched);
    var resolved := ListStatuses(board.lists, opStatuses);
    if resolved.Err? {
      UnresolvedStatusStopsRun(board, fetched, project, idOf);
      return [Get(STATUSES_URL)], Some(resolved.error);
    }
    var cardsSent, cardsFailure := PostCards(board, opStatuses, resolved.value, project, idOf);
    ResolvedRun(board, fetched, project, idOf);
    sent := [Get(STATUSES_URL)] + cardsSent;
    failure := cardsFailure;
  }
}
