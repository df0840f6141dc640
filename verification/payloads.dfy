/** The request bodies the script builds for a card, a comment and a checklist item. */
module Payloads {

  import opened Wrappers
  import opened Records
  import opened Text

  /** The work-package payload for a card (`work_project`), or the lookup that
      aborts the run. */
  function CardPayload(card: Card, statuses: map<string, string>): (r: Result<WorkPackage, Failure>)
    ensures r.Err? <==> card.listId !in statuses || card.description.Null?
    ensures card.listId !in statuses ==> r == Err(UnknownListId(card.listId))
    ensures card.listId in statuses && card.description.Null? ==> r == Err(DescriptionNotText(card.id))
    ensures r.Ok? ==>
              && r.value.subject == card.title
              && r.value.startDate == Some(Prefix(card.createdAt, 10))
              && r.value.status == statuses[card.listId]
              && r.value.version == Some(VERSION)
              && r.value.parent == None
    ensures r.Ok? ==> (r.value.description.Some? <==> card.description.Str? && card.description.text != [])
    ensures r.Ok? && r.value.description.Some? ==> r.value.description.value == card.description.text
    ensures r.Ok? ==> (r.value.dueDate.Some? <==> card.dueAt.Str? && card.dueAt.text != [])
    ensures r.Ok? && r.value.dueDate.Some? ==> r.value.dueDate.value == Prefix(card.dueAt.text, 10)
    ensures r.Ok? ==> (r.value.assignee.Some? <==> |card.members| > 0 && card.members[0] in USER_MAP)
    ensures r.Ok? && r.value.assignee.Some? ==> r.value.assignee.value == USER_MAP[card.members[0]]
  {
    if card.listId !in statuses then Err(UnknownListId(card.listId))
    else if card.description.Null? then Err(DescriptionNotText(card.id))
    else
      Ok(WorkPackage(
        subject := card.title,
        startDate := Some(Prefix(card.createdAt, 10)),
        description := if card.description.Str? && |card.description.text| > 0
                       then Some(card.description.text) else None,
        dueDate := if card.dueAt.Str? && card.dueAt.text != []
                   then Some(Prefix(card.dueAt.text, 10)) else None,
        status := statuses[card.listId],
        version := Some(VERSION),
        assignee := if |card.members| > 0 && card.members[0] in USER_MAP
                    then Some(USER_MAP[card.members[0]]) else None,
        parent := None))
  }

  /** Members after the first never matter, and no member list makes the payload fail. */
  lemma AssigneeFromFirstMemberOnly(card: Card, statuses: map<string, string>, members: seq<string>)
    requires |card.members| > 0 && |members| > 0 && members[0] == card.members[0]
    ensures CardPayload(card.(members := members), statuses) == CardPayload(card, statuses)
  {
  }

  lemma AssigneeNeverFails(card: Card, statuses: map<string, string>, members: seq<string>)
    ensures CardPayload(card.(members := members), statuses).Ok? == CardPayload(card, statuses).Ok?
  {
  }

  /** The mention for a comment author: the user href without its first 8
      characters, with `s/` rewritten to `#`. */
  function CommentAuthor(href: string): string {
    Replace(Drop(href, 8), "s/", "#")
  }

  /** `/api/v3/users/<id>` becomes `user#<id>` for an id without an `s`. */
  lemma {:induction false} AuthorOfUserHref(id: string)
    requires 's' !in id
    ensures CommentAuthor("/api/v3/users/" + id) == "user#" + id
  {
    var s1 := "s/" + id;
    var s2 := ['r'] + s1;
    var s3 := ['e'] + s2;
    var s4 := ['s'] + s3;
    var s5 := ['u'] + s4;
    var href := "/api/v3/users/" + id;
    assert href == "/api/v3/" + s5;
    assert Drop(href, 8) == s5;
    assert s2[..2] == ['r', 's'] && s3[..2] == ['e', 'r'] && s4[..2] == ['s', 'e'] && s5[..2] == ['u', 's'];
    calc {
      CommentAuthor(href);
      Replace(s5, "s/", "#");
      { ReplaceKeep('u', s4, "s/", "#"); }
      ['u'] + Replace(s4, "s/", "#");
      { ReplaceKeep('s', s3, "s/", "#"); }
      ['u'] + (['s'] + Replace(s3, "s/", "#"));
      { ReplaceKeep('e', s2, "s/", "#"); }
      ['u'] + (['s'] + (['e'] + Replace(s2, "s/", "#")));
      { ReplaceKeep('r', s1, "s/", "#"); }
      ['u'] + (['s'] + (['e'] + (['r'] + Replace(s1, "s/", "#"))));
      { ReplaceHit(id, "s/", "#"); ReplaceAbsentFirst(id, "s/", "#"); }
      ['u'] + (['s'] + (['e'] + (['r'] + ("#" + id))));
      "user#" + id;
    }
  }

  /** Every mapped user gets the mention `user#<n>`, where `<n>` is the
      OpenProject user number at the end of its href. */
  lemma MappedAuthors(userId: string)
    requires userId in USER_MAP
    ensures var href := USER_MAP[userId];
            "/api/v3/users/" <= href && CommentAuthor(href) == "user#" + href[|"/api/v3/users/"|..]
  {
    var href := USER_MAP[userId];
    var id := if href == "/api/v3/users/5" then "5" else if href == "/api/v3/users/9" then "9" else "11";
    assert href == "/api/v3/users/" + id;
    assert href[|"/api/v3/users/"|..] == id;
    AuthorOfUserHref(id);
  }

  /** The comment date: the first 16 characters of the timestamp with `T`
      rewritten to ` at `. */
  function CommentDate(createdAt: string): string {
    Replace(Prefix(createdAt, 16), "T", " at ")
  }

  /** An ISO-8601 timestamp `<day>T<hh:mm>...` gives `<day> at <hh:mm>`. */
  lemma DateOfTimestamp(day: string, time: string, rest: string)
    requires |day| == 10 && |time| == 5 && 'T' !in day && 'T' !in time
    ensures CommentDate(day + "T" + time + rest) == day + " at " + time
  {
    var stamp := day + "T" + time + rest;
    var tail := ['T'] + time;
    assert stamp == (day + tail) + rest;
    assert Prefix(stamp, 16) == day + tail by {
      if rest == [] {
        assert stamp == day + tail;
      } else {
        assert stamp[..16] == day + tail;
      }
    }
    calc {
      CommentDate(stamp);
      Replace(day + tail, ['T'], " at ");
      { ReplaceCharAppend(day, tail, 'T', " at "); }
      Replace(day, ['T'], " at ") + Replace(tail, ['T'], " at ");
      { ReplaceAbsentFirst(day, ['T'], " at "); ReplaceCharCons('T', time, 'T', " at "); ReplaceAbsentFirst(time, ['T'], " at "); }
      day + (" at " + time);
    }
  }

  /** The comment text as a markdown block quote: `> ` in front, and `> ` after
      every newline. */
  function Quote(text: string): string {
    "> " + Replace(text, "\n", "\n> ")
  }

  function QuoteEach(lines: seq<string>): (r: seq<string>)
    ensures |r| == |lines|
    ensures forall i :: 0 <= i < |lines| ==> r[i] == "> " + lines[i]
  {
    seq(|lines|, i requires 0 <= i < |lines| => "> " + lines[i])
  }

  /** What `QuoteAfter` states, for text `p` without a newline in front of
      the quoted form of `s`. */
  predicate QuotesAfter(p: string, s: string) {
    Lines(p + Replace(s, "\n", "\n> ")) == [p + Lines(s)[0]] + QuoteEach(Lines(s)[1..])
  }

  lemma QuoteEachFront(lines: seq<string>)
    requires |lines| >= 1
    ensures QuoteEach(lines) == ["> " + lines[0]] + QuoteEach(lines[1..])
  {
    var r := ["> " + lines[0]] + QuoteEach(lines[1..]);
    assert forall i :: 1 <= i < |lines| ==> r[i] == "> " + lines[i];
  }

  lemma {:induction false} QuoteAfter(p: string, s: string)
    requires '\n' !in p
    ensures QuotesAfter(p, s)
    decreases |s|
  {
    if s == [] {
      LinesConcat(p, []);
      assert p + [] == p;
    } else if s[0] == '\n' {
      QuoteAfter("> ", s[1..]);
      QuoteAfterNewline(p, s[1..]);
      assert s == ['\n'] + s[1..];
    } else {
      assert '\n' !in p + [s[0]];
      QuoteAfter(p + [s[0]], s[1..]);
      QuoteAfterOther(p, s[0], s[1..]);
      assert s == [s[0]] + s[1..];
    }
  }

  lemma QuoteAfterNewline(p: string, t: string)
    requires '\n' !in p
    requires QuotesAfter("> ", t)
    ensures QuotesAfter(p, ['\n'] + t)
  {
    var s := ['\n'] + t;
    var q := "> " + Replace(t, "\n", "\n> ");
    ReplaceCharCons('\n', t, '\n', "\n> ");
    assert p + Replace(s, "\n", "\n> ") == p + ['\n'] + q;
    LinesAfterNewline(p, q);
    assert s[1..] == t;
    assert Lines(s) == [[]] + Lines(t);
    QuoteEachFront(Lines(t));
    assert Lines(q) == QuoteEach(Lines(t));
    assert p + [] == p;
  }

  lemma QuoteAfterOther(p: string, x: char, t: string)
    requires x != '\n'
    requires QuotesAfter(p + [x], t)
    ensures QuotesAfter(p, [x] + t)
  {
    var s := [x] + t;
    var rt := Replace(t, "\n", "\n> ");
    ReplaceCharCons(x, t, '\n', "\n> ");
    assert p + Replace(s, "\n", "\n> ") == (p + [x]) + rt;
    var lt := Lines(t);
    assert s[1..] == t;
    assert Lines(s) == [[x] + lt[0]] + lt[1..];
    assert (p + [x]) + lt[0] == p + ([x] + lt[0]);
  }

  /** The quoted text has as many lines as the original, each being `> `
      followed by the original line. */
  lemma QuoteLines(text: string)
    ensures Lines(Quote(text)) == QuoteEach(Lines(text))
  {
    QuoteAfter("> ", text);
  }

  /** Strip the first two characters of every line. */
  function Unquote(quoted: string): string {
    var lines := Lines(quoted);
    Unlines(seq(|lines|, i requires 0 <= i < |lines| => Drop(lines[i], 2)))
  }

  /** Removing the `> ` prefixes gives the original comment text back. */
  lemma UnquoteQuote(text: string)
    ensures Unquote(Quote(text)) == text
  {
    QuoteLines(text);
    var lines := Lines(Quote(text));
    var stripped := seq(|lines|, i requires 0 <= i < |lines| => Drop(lines[i], 2));
    assert forall i :: 0 <= i < |lines| ==> Drop("> " + Lines(text)[i], 2) == Lines(text)[i];
    assert stripped == Lines(text);
    UnlinesLines(text);
  }

  /** The raw markdown of a migrated comment. */
  function CommentRaw(author: string, date: string, text: string): string {
    author + " posted on " + date + ":\n" + Quote(text)
  }

  /** A comment's raw text is one header line followed by the quoted lines of
      the original text. */
  lemma CommentRawLines(author: string, date: string, text: string)
    requires '\n' !in author && '\n' !in date
    ensures Lines(CommentRaw(author, date, text)) ==
              [author + " posted on " + date + ":"] + QuoteEach(Lines(text))
  {
    var header := author + " posted on " + date + ":";
    var q := Quote(text);
    assert '\n' !in header;
    assert CommentRaw(author, date, text) == header + ("\n" + q);
    LinesConcat(header, "\n" + q);
    assert ("\n" + q)[0] == '\n' && ("\n" + q)[1..] == q;
    assert Lines("\n" + q) == [[]] + Lines(q);
    QuoteLines(text);
    assert header + [] == header;
  }

  /** The request for one comment on work package `pkgid`; an author missing
      from the user map aborts the run. */
  function CommentStep(comment: Comment, pkgid: string): (r: Result<Request, Failure>)
    ensures r.Err? <==> comment.userId !in USER_MAP
    ensures r.Err? ==> r.error == UnknownUser(comment.userId)
    ensures r.Ok? ==> r.value.Post? && r.value.url == ActivitiesUrl(pkgid)
    ensures r.Ok? ==> r.value.body.CommentBody? && r.value.body.format == "markdown"
  {
    if comment.userId !in USER_MAP then Err(UnknownUser(comment.userId))
    else
      var author := CommentAuthor(USER_MAP[comment.userId]);
      var date := CommentDate(comment.createdAt);
      Ok(Post(ActivitiesUrl(pkgid), CommentBody("markdown", CommentRaw(author, date, comment.text))))
  }

  /** The example comment "line1\nline2" by user 9 at 2024-01-05T10:00. */
  lemma ExampleComment(pkgid: string)
    ensures CommentStep(Comment("c", "QMFskvFgCzGZcmurb", "2024-01-05T10:00:00.000Z", "line1\nline2"), pkgid)
            == Ok(Post(ActivitiesUrl(pkgid), CommentBody("markdown",
                 "user#9" + " posted on " + "2024-01-05 at 10:00" + ":\n" + "> line1\n> line2")))
  {
    var author := CommentAuthor(USER_MAP["QMFskvFgCzGZcmurb"]);
    assert author == "user#9" by {
      MappedAuthors("QMFskvFgCzGZcmurb");
      assert USER_MAP["QMFskvFgCzGZcmurb"][|"/api/v3/users/"|..] == "9";
    }
    ExampleDate();
    ExampleQuote();
    CommentStepParts(Comment("c", "QMFskvFgCzGZcmurb", "2024-01-05T10:00:00.000Z", "line1\nline2"),
      pkgid, "user#9", "2024-01-05 at 10:00", "> line1\n> line2");
  }

  lemma CommentStepParts(comment: Comment, pkgid: string, author: string, date: string, quoted: string)
    requires comment.userId in USER_MAP
    requires CommentAuthor(USER_MAP[comment.userId]) == author
    requires CommentDate(comment.createdAt) == date
    requires Quote(comment.text) == quoted
    ensures CommentStep(comment, pkgid) ==
              Ok(Post(ActivitiesUrl(pkgid), CommentBody("markdown", author + " posted on " + date + ":\n" + quoted)))
  {
  }

  lemma ExampleDate()
    ensures CommentDate("2024-01-05T10:00:00.000Z") == "2024-01-05 at 10:00"
  {
    var day, time, rest := "2024-01-05", "10:00", ":00.000Z";
    assert 'T' !in day && 'T' !in time;
    assert day + "T" + time + rest == "2024-01-05T10:00:00.000Z";
    DateOfTimestamp(day, time, rest);
    assert day + " at " + time == "2024-01-05 at 10:00";
  }

  lemma QuoteTwoLines(a: string, b: string)
    requires '\n' !in a && '\n' !in b
    ensures Quote(a + ['\n'] + b) == "> " + a + "\n> " + b
  {
    assert a + ['\n'] + b == a + (['\n'] + b);
    ReplaceCharAppend(a, ['\n'] + b, '\n', "\n> ");
    ReplaceAbsentFirst(a, "\n", "\n> ");
    ReplaceCharCons('\n', b, '\n', "\n> ");
    ReplaceAbsentFirst(b, "\n", "\n> ");
  }

  lemma ExampleQuote()
    ensures Quote("line1\nline2") == "> line1\n> line2"
  {
    var a, b := "line1", "line2";
    assert "line1\nline2" == a + ['\n'] + b;
    QuoteTwoLines(a, b);
  }

  /** The subtask payload for a checklist item under work package `pkgid`. */
  function SubtaskPayload(item: ChecklistItem, opStatuses: map<string, string>, pkgid: string): (r: Result<WorkPackage, Failure>)
    ensures var wanted := if item.isFinished then "Closed" else "New";
            && (r.Err? <==> wanted !in opStatuses)
            && (r.Err? ==> r.error == UnknownStatusName(wanted))
            && (r.Ok? ==> r.value.status == opStatuses[wanted])
    ensures r.Ok? ==> r.value.subject == item.title && r.value.parent == Some(ParentHref(pkgid))
    ensures r.Ok? ==> r.value.startDate.None? && r.value.description.None? && r.value.dueDate.None?
                      && r.value.version.None? && r.value.assignee.None?
  {
    var wanted := if item.isFinished then "Closed" else "New";
    if wanted !in opStatuses then Err(UnknownStatusName(wanted))
    else
      Ok(WorkPackage(
        subject := item.title,
        startDate := None,
        description := None,
        dueDate := None,
        status := opStatuses[wanted],
        version := None,
        assignee := None,
        parent := Some(ParentHref(pkgid))))
  }
}
