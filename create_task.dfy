/** The task-creation modal: the reference-link parser and the create handler. */
module CreateTask {
  import opened Text
  import opened Seqs
  import opened Store

  const EMPTY_FIELDS_ALERT: string := "Title and description cannot be empty."
  const CREATE_FAILED_ALERT: string := "Failed to create task. Please try again."
  const MAIL_FAILED_LOG: string := "Task created successfully but failed to send email notification"

  predicate NonEmpty(s: string) { s != "" }

  /** `getLinksArray`: one link per input line, trimmed, blank lines dropped. */
  function GetLinksArray(links: string): seq<string>
  {
    Filter(Map(Split(links, '\n'), Trim), NonEmpty)
  }

  /** Every link is non-empty, has no surrounding whitespace and no line break, and there
      are at most as many links as input lines. */
  lemma LinksAreClean(links: string)
    ensures |GetLinksArray(links)| <= multiset(links)['\n'] + 1
    ensures forall i :: 0 <= i < |GetLinksArray(links)| ==>
      var l := GetLinksArray(links)[i];
      l != "" && Trim(l) == l && '\n' !in l
  {
    var lines := Split(links, '\n');
    var trimmed := Map(lines, Trim);
    SplitCount(links, '\n');
    SplitPiecesFree(links, '\n');
    forall i | 0 <= i < |GetLinksArray(links)|
      ensures var l := GetLinksArray(links)[i]; l != "" && Trim(l) == l && '\n' !in l
    {
      var l := GetLinksArray(links)[i];
      var j :| 0 <= j < |trimmed| && trimmed[j] == l;
      TrimIdempotent(lines[j]);
      if '\n' in l {
        TrimChars(lines[j], '\n');
      }
    }
  }

  /** No links come out exactly when the input is whitespace only (line breaks included). */
  lemma LinksEmptyIffBlank(links: string)
    ensures GetLinksArray(links) == [] <==> IsBlank(links)
  {
    var lines := Split(links, '\n');
    var trimmed := Map(lines, Trim);
    if IsBlank(links) {
      if GetLinksArray(links) != [] {
        var j :| 0 <= j < |trimmed| && trimmed[j] == GetLinksArray(links)[0];
        forall k | 0 <= k < |lines[j]| ensures IsSpace(lines[j][k]) {
          SplitChars(links, '\n', j, lines[j][k]);
        }
        TrimEmptyIffBlank(lines[j]);
      }
    } else {
      var i :| 0 <= i < |links| && !IsSpace(links[i]);
      SplitCovers(links, '\n', i);
      var j :| 0 <= j < |lines| && links[i] in lines[j];
      TrimEmptyIffBlank(lines[j]);
      assert trimmed[j] != "";
      assert trimmed[j] in GetLinksArray(links);
    }
  }

  /** Links keep the order of their lines: the links of two blocks of lines, one after
      the other, are the links of the first block followed by those of the second. */
  lemma LinksOfConcatenation(a: string, b: string)
    ensures GetLinksArray(a + "\n" + b) == GetLinksArray(a) + GetLinksArray(b)
  {
    assert a + "\n" + b == a + ['\n'] + b;
    SplitAppend(a, b, '\n');
    var la, lb := Split(a, '\n'), Split(b, '\n');
    MapAppend(la, lb, Trim);
    FilterAppend(Map(la, Trim), Map(lb, Trim), NonEmpty);
  }

  /** Writing clean links one per line and parsing them gives them back. */
  lemma LinksRoundTrip(links: seq<string>)
    requires forall i :: 0 <= i < |links| ==>
      links[i] != "" && '\n' !in links[i] && !IsSpace(links[i][0]) && !IsSpace(links[i][|links[i]| - 1])
    ensures GetLinksArray(Join(links, '\n')) == links
  {
    if links != [] {
      SplitJoin(links, '\n');
      forall i | 0 <= i < |links| ensures Trim(links[i]) == links[i] {
        TrimOfTrimmed(links[i]);
      }
      assert Map(links, Trim) == links;
      FilterAll(links, NonEmpty);
    }
  }

  /** The form and flags of the create-task modal. */
  class CreateTaskModal {
    var title: string
    var description: string
    var deadline: string
    var referenceLinks: string
    var isCreating: bool

    constructor ()
      ensures title == "" && description == "" && deadline == "" && referenceLinks == ""
      ensures !isCreating
    {
      title, description, deadline, referenceLinks := "", "", "", "";
      isCreating := false;
    }

    predicate HasBlankField()
      reads this
    {
      Trim(title) == "" || Trim(description) == ""
    }

    /** `handleCreateTask`. The assignee's user record is read first; `currentUid` is the
        signed-in user, absent when there is none; `readFails`, `writeFails` and `mailFails`
        say which remote calls fail; `taskId` is the id the store assigns. */
    method HandleCreateTask(db: Db, employeeId: string, currentUid: Option<string>, taskId: string,
                            now: int, readFails: bool, writeFails: bool, mailFails: bool)
      returns (alert: Option<string>, closed: bool, mailTo: Option<string>, log: Option<string>)
      requires taskId !in db.tasks
      modifies this, db`tasks
      // A blank title or description stops everything before any remote call.
      ensures old(HasBlankField()) ==>
        && alert == Some(EMPTY_FIELDS_ALERT) && !closed && mailTo == None && log == None
        && db.tasks == old(db.tasks) && unchanged(this)
      // A missing assignee record, a failed read or write, or no signed-in user writes nothing.
      ensures !old(HasBlankField()) && (readFails || employeeId !in db.users || currentUid.None? || writeFails) ==>
        && alert == Some(CREATE_FAILED_ALERT) && !closed && mailTo == None && log == None
        && db.tasks == old(db.tasks) && !isCreating
        && title == old(title) && description == old(description)
        && deadline == old(deadline) && referenceLinks == old(referenceLinks)
      // Otherwise the task is written as entered, with the parsed links, and the form resets;
      // a failed notification is only logged.
      ensures !old(HasBlankField()) && !(readFails || employeeId !in db.users || currentUid.None? || writeFails) ==>
        && db.tasks == old(db.tasks)[taskId := Task(
             old(title), Some(old(description)), employeeId, currentUid.value, STATUS_PENDING, now,
             Some(old(deadline)), Some(GetLinksArray(old(referenceLinks))), None, None)]
        && alert == None && closed && mailTo == Some(db.users[employeeId].email)
        && log == (if mailFails then Some(MAIL_FAILED_LOG) else None)
        && title == "" && description == "" && deadline == "" && referenceLinks == "" && !isCreating
      // Tasks created here only ever name an assignee that has a user record.
      ensures forall id :: id in db.tasks && id !in old(db.tasks) ==> db.tasks[id].assignedTo in db.users
      ensures KnownStatuses(old(db.tasks)) ==> KnownStatuses(db.tasks)
    {
      alert, closed, mailTo, log := None, false, None, None;
      if HasBlankField() {
        alert := Some(EMPTY_FIELDS_ALERT);
        return;
      }
      isCreating := true;
      var linksArray := GetLinksArray(referenceLinks);
      if readFails || employeeId !in db.users || currentUid.None? || writeFails {
        alert := Some(CREATE_FAILED_ALERT);
      } else {
        var employee := db.users[employeeId];
        db.tasks := db.tasks[taskId := Task(
          title, Some(description), employeeId, currentUid.value, STATUS_PENDING, now,
          Some(deadline), Some(linksArray), None, None)];
        closed := true;
        title, description := "", "";
        deadline := "";
        referenceLinks := "";
        mailTo := Some(employee.email);
        if mailFails {
          log := Some(MAIL_FAILED_LOG);
        }
      }
      isCreating := false;
    }
  }
}
