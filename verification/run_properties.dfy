/** What a complete run guarantees about the work packages it creates. */
module RunProperties {

  import opened Wrappers
  import opened Records
  import opened Seqs
  import opened Statuses
  import opened Selection
  import opened Payloads
  import opened Migration

  /** A request that creates a top-level work package, i.e. one for a card. */
  predicate IsCardCreation(r: Request) {
    r.Post? && r.body.WorkPackageBody? && r.body.workPackage.parent.None?
  }

  /** The subject of a work-package request (empty for anything else). */
  function Subject(r: Request): string {
    if r.Post? && r.body.WorkPackageBody? then r.body.workPackage.subject else ""
  }

  /** The subjects of the card creations among `sent`, in the order sent. */
  function CreatedSubjects(sent: seq<Request>): seq<string> {
    if sent == [] then []
    else
      var last := sent[|sent| - 1];
      CreatedSubjects(sent[..|sent| - 1]) + (if IsCardCreation(last) then [Subject(last)] else [])
  }

  function Title(card: Card): string {
    card.title
  }

  /** Creations of two request lists sent one after the other. */
  lemma {:induction false} CreatedSubjectsAppend(a: seq<Request>, b: seq<Request>)
    ensures CreatedSubjects(a + b) == CreatedSubjects(a) + CreatedSubjects(b)
    decreases |b|
  {
    if b == [] {
      assert a + b == a;
    } else {
      assert (a + b)[..|a + b| - 1] == a + b[..|b| - 1];
      CreatedSubjectsAppend(a, b[..|b| - 1]);
    }
  }

  /** A creation followed by requests of other kinds contributes one subject. */
  lemma OneCreation(r: Request, rest: seq<Request>, more: seq<Request>)
    requires IsCardCreation(r)
    requires CreatedSubjects(rest) == [] && CreatedSubjects(more) == []
    ensures CreatedSubjects([r] + rest + more) == [Subject(r)]
  {
    CreatedSubjectsAppend([r] + rest, more);
    CreatedSubjectsAppend([r], rest);
    assert [r][..0] == [];
  }

  /** Creations of two runs, the second after the first. */
  lemma CreationsThen(before: Trace, next: Trace)
    ensures CreatedSubjects(Then(before, next).sent)
            == if before.failure.Some? then CreatedSubjects(before.sent)
               else CreatedSubjects(before.sent) + CreatedSubjects(next.sent)
  {
    CreatedSubjectsAppend(before.sent, next.sent);
  }

  /** Selected steps that never create a card send no card creation. */
  lemma {:induction false} SelectedCreateNothing<T>(xs: seq<T>, keep: T -> bool, f: T -> Step)
    requires forall x :: f(x).Ok? ==> !IsCardCreation(f(x).value)
    ensures CreatedSubjects(Sequence(FilterMap(xs, keep, f)).sent) == []
    decreases |xs|
  {
    if xs != [] {
      var init, last := xs[..|xs| - 1], xs[|xs| - 1];
      var tail: seq<Step> := if keep(last) then [f(last)] else [];
      SelectedCreateNothing(init, keep, f);
      SequenceAppend(FilterMap(init, keep, f), tail);
      CreationsThen(Sequence(FilterMap(init, keep, f)), Sequence(tail));
      if keep(last) && f(last).Ok? {
        assert tail[1..] == [];
        assert CreatedSubjects(Sequence(tail).sent) == [] by {
          assert [f(last).value][..0] == [];
        }
      }
    }
  }

  /** Comment requests post activities, never work packages. */
  lemma CommentsCreateNothing(comments: seq<Comment>, cardId: string, pkgid: string)
    ensures CreatedSubjects(Sequence(CommentSteps(comments, cardId, pkgid)).sent) == []
  {
    SelectedCreateNothing(comments, (c: Comment) => c.cardId == cardId, (c: Comment) => CommentStep(c, pkgid));
  }

  /** Subtask requests always name a parent, so none of them is a card creation. */
  lemma SubtasksCreateNoCard(board: Board, cardId: string, opStatuses: map<string, string>,
                             project: string, pkgid: string)
    ensures CreatedSubjects(Sequence(ChecklistSteps(board, cardId, opStatuses, project, pkgid)).sent) == []
  {
    match FirstChecklist(board.checklists, cardId)
    case None =>
    case Some(checklist) =>
      SelectedCreateNothing(board.items, (it: ChecklistItem) => it.checklistId == checklist.id,
                            (it: ChecklistItem) => SubtaskStep(it, opStatuses, project, pkgid));
  }

  /** A card that goes through without failure creates exactly one top-level
      work package, titled after the card. */
  lemma CardCreatesOne(board: Board, opStatuses: map<string, string>, statuses: map<string, string>,
                       project: string, idOf: nat -> string, i: nat)
    requires i < |board.cards|
    requires CardRun(board, opStatuses, statuses, project, idOf, i).failure.None?
    ensures CreatedSubjects(CardRun(board, opStatuses, statuses, project, idOf, i).sent) == [board.cards[i].title]
  {
    var card, pkgid := board.cards[i], idOf(i);
    var cardStep := CardStep(card, statuses, project);
    var comments := Sequence(CommentSteps(board.comments, card.id, pkgid));
    var subtasks := Sequence(ChecklistSteps(board, card.id, opStatuses, project, pkgid));
    CardStepsRun(board, opStatuses, statuses, project, card, pkgid);
    assert cardStep.Ok?;
    assert CardRun(board, opStatuses, statuses, project, idOf, i).sent
           == [cardStep.value] + comments.sent + subtasks.sent;
    CommentsCreateNothing(board.comments, card.id, pkgid);
    SubtasksCreateNoCard(board, card.id, opStatuses, project, pkgid);
    OneCreation(cardStep.value, comments.sent, subtasks.sent);
    assert Subject(cardStep.value) == card.title;
  }

  /** Runs `runs(0)`, ..., `runs(n - 1)` one after another, each only if
      every run before it succeeded: the shape of `CardsRun`, for any runs. */
  function RunEach(runs: nat -> Trace, n: nat): Trace {
    if n == 0 then Trace([], None) else Then(RunEach(runs, n - 1), runs(n - 1))
  }

  /** Creations matching the first `n - 1` titles, then the `n`-th one alone,
      match the first `n` titles. */
  lemma CreationsExtend(before: seq<Request>, next: seq<Request>, titles: seq<string>, n: nat)
    requires 0 < n <= |titles|
    requires CreatedSubjects(before) == titles[..n - 1]
    requires CreatedSubjects(next) == [titles[n - 1]]
    ensures CreatedSubjects(before + next) == titles[..n]
  {
    CreatedSubjectsAppend(before, next);
    assert titles[..n] == titles[..n - 1] + [titles[n - 1]];
  }

  /** If each run that succeeds creates exactly the `i`-th title, a sequence of
      runs without failure creates the titles in order. */
  lemma {:induction false} RunEachCreations(runs: nat -> Trace, titles: seq<string>, n: nat)
    requires n <= |titles|
    requires forall i :: 0 <= i < n && runs(i).failure.None? ==> CreatedSubjects(runs(i).sent) == [titles[i]]
    requires RunEach(runs, n).failure.None?
    ensures CreatedSubjects(RunEach(runs, n).sent) == titles[..n]
  {
    if n > 0 {
      var before, next := RunEach(runs, n - 1), runs(n - 1);
      assert RunEach(runs, n) == Trace(before.sent + next.sent, next.failure);
      RunEachCreations(runs, titles, n - 1);
      CreationsExtend(before.sent, next.sent, titles, n);
    }
  }

  /** Every card run, as a function of the card's index. */
  function CardRunAt(board: Board, opStatuses: map<string, string>, statuses: map<string, string>,
                     project: string, idOf: nat -> string): nat -> Trace
  {
    (i: nat) => if i < |board.cards| then CardRun(board, opStatuses, statuses, project, idOf, i) else Trace([], None)
  }

  lemma {:induction false} CardsRunEach(board: Board, opStatuses: map<string, string>, statuses: map<string, string>,
                                        project: string, idOf: nat -> string, n: nat)
    requires n <= |board.cards|
    ensures CardsRun(board, opStatuses, statuses, project, idOf, n)
            == RunEach(CardRunAt(board, opStatuses, statuses, project, idOf), n)
  {
    if n > 0 {
      var runs := CardRunAt(board, opStatuses, statuses, project, idOf);
      var card := CardRun(board, opStatuses, statuses, project, idOf, n - 1);
      var before := CardsRun(board, opStatuses, statuses, project, idOf, n - 1);
      CardsRunEach(board, opStatuses, statuses, project, idOf, n - 1);
      assert runs(n - 1) == card;
      assert RunEach(runs, n) == Then(RunEach(runs, n - 1), runs(n - 1));
      assert CardsRun(board, opStatuses, statuses, project, idOf, n) == Then(before, card);
    }
  }

  /** A run over all the cards without failure creates one top-level work
      package per card, in export order, each titled after its card. */
  lemma CardsCreatedInOrder(board: Board, opStatuses: map<string, string>, statuses: map<string, string>,
                            project: string, idOf: nat -> string)
    requires CardsRun(board, opStatuses, statuses, project, idOf, |board.cards|).failure.None?
    ensures CreatedSubjects(CardsRun(board, opStatuses, statuses, project, idOf, |board.cards|).sent)
            == Map(board.cards, Title)
  {
    var runs := CardRunAt(board, opStatuses, statuses, project, idOf);
    var titles := Map(board.cards, Title);
    forall i | 0 <= i < |board.cards| && runs(i).failure.None?
      ensures CreatedSubjects(runs(i).sent) == [titles[i]]
    {
      CardCreatesOne(board, opStatuses, statuses, project, idOf, i);
    }
    CardsRunEach(board, opStatuses, statuses, project, idOf, |board.cards|);
    RunEachCreations(runs, titles, |board.cards|);
    assert titles[..|board.cards|] == titles;
  }

  /** A run ends without failure only if the format matched and every list
      resolved to a status. */
  lemma CompletedRunResolved(board: Board, fetched: seq<OpStatus>, project: string, idOf: nat -> string)
    requires Run(board, fetched, project, idOf).failure.None?
    ensures board.format == FORMAT
    ensures ListStatuses(board.lists, StatusTable(fetched)).Ok?
  {
    if board.format != FORMAT {
      WrongFormatSendsNothing(board, fetched, project, idOf);
      assert false;
    } else if ListStatuses(board.lists, StatusTable(fetched)).Err? {
      UnresolvedStatusStopsRun(board, fetched, project, idOf);
      assert false;
    }
  }

  /** A run that ends without failure has created every card, once each, in
      export order, as a top-level work package with the card's title. */
  lemma EveryCardCreatedOnce(board: Board, fetched: seq<OpStatus>, project: string, idOf: nat -> string)
    requires Run(board, fetched, project, idOf).failure.None?
    ensures CreatedSubjects(Run(board, fetched, project, idOf).sent) == Map(board.cards, Title)
  {
    CompletedRunResolved(board, fetched, project, idOf);
    var opStatuses := StatusTable(fetched);
    var statuses := ListStatuses(board.lists, opStatuses).value;
    var cards := CardsRun(board, opStatuses, statuses, project, idOf, |board.cards|);
    ResolvedRun(board, fetched, project, idOf);
    CardsCreatedInOrder(board, opStatuses, statuses, project, idOf);
    CreatedSubjectsAppend([Get(STATUSES_URL)], cards.sent);
    assert [Get(STATUSES_URL)][..0] == [];
  }
}
