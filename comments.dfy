/** The comments modal (add a comment, newest shown first) and the read-only
    comments list sorted newest first. */
module Comments {
  import opened Text
  import opened Seqs
  import opened Sorting
  import opened Store

  /** The order the modal shows its local list in: `[...localComments].reverse()`. */
  function DisplayOrder(comments: seq<Comment>): (r: seq<Comment>)
  {
    Reverse(comments)
  }

  /** A comment just appended to the local list is shown first, above the others in their
      previous display order. */
  lemma DisplayNewestFirst(comments: seq<Comment>, c: Comment)
    ensures DisplayOrder(comments + [c]) == [c] + DisplayOrder(comments)
  {
    ReverseSnoc(comments, c);
  }

  /** Display order lists the stored order backwards, entry for entry. */
  lemma DisplayOrderAt(comments: seq<Comment>, i: nat)
    requires i < |comments|
    ensures |DisplayOrder(comments)| == |comments|
    ensures DisplayOrder(comments)[i] == comments[|comments| - 1 - i]
  {
    ReverseAt(comments, i);
  }

  /** The comment as stored: the trimmed input, attributed to the task's assignee
      whoever is typing. */
  function NewComment(input: string, task: Task, now: int): Comment
  {
    Comment(Trim(input), now, task.assignedTo)
  }

  class CommentsModal {
    var comment: string
    var localComments: seq<Comment>
    var isSubmitting: bool

    constructor ()
      ensures comment == "" && localComments == [] && !isSubmitting
    {
      comment, localComments, isSubmitting := "", [], false;
    }

    predicate CommentIsBlank()
      reads this
    {
      Trim(comment) == ""
    }

    /** The effect on `task`: the local list is seeded from `task.comments` only when present. */
    method OnTaskChanged(task: Option<Task>)
      modifies this`localComments
      ensures localComments ==
        if task.Some? && task.value.comments.Some? then task.value.comments.value else old(localComments)
    {
      if task.Some? && task.value.comments.Some? {
        localComments := task.value.comments.value;
      }
    }

    /** `handleAddComment` for the open task `task` (the modal renders only with a task).
        The update fails when the write fails or the task document no longer exists. */
    method HandleAddComment(db: Db, task: Doc<Task>, now: int, writeFails: bool)
      modifies this, db`tasks
      // A blank comment, or a submission while one is in flight, changes nothing.
      ensures old(CommentIsBlank()) || old(isSubmitting) ==> unchanged(this) && db.tasks == old(db.tasks)
      ensures !old(CommentIsBlank()) && !old(isSubmitting) ==> !isSubmitting
      // On success the stored list gains the comment (set-union) and the local list gains it at the end.
      ensures !old(CommentIsBlank()) && !old(isSubmitting) && !writeFails && task.id in old(db.tasks) ==>
        var c := NewComment(old(comment), task.data, now);
        var stored := old(db.tasks)[task.id];
        && db.tasks == old(db.tasks)[task.id := stored.(comments := Some(ArrayUnion(stored.comments, c)))]
        && localComments == old(localComments) + [c]
        && comment == ""
      // On failure nothing but the flag changes.
      ensures !old(CommentIsBlank()) && !old(isSubmitting) && (writeFails || task.id !in old(db.tasks)) ==>
        db.tasks == old(db.tasks) && localComments == old(localComments) && comment == old(comment)
      ensures KnownStatuses(old(db.tasks)) ==> KnownStatuses(db.tasks)
    {
      if CommentIsBlank() || isSubmitting {
        return;
      }
      isSubmitting := true;
      var c := NewComment(comment, task.data, now);
      if !writeFails && task.id in db.tasks {
        var stored := db.tasks[task.id];
        db.tasks := db.tasks[task.id := stored.(comments := Some(ArrayUnion(stored.comments, c)))];
        localComments := localComments + [c];
        comment := "";
      }
      isSubmitting := false;
    }
  }

  /** The sort key for newest first: the comparator `dateB - dateA` orders by descending timestamp. */
  function NewestFirstKey(c: Comment): int { -c.timestamp }

  /** `[...comments].sort(...)`: a permutation of the comments, newest first. */
  function SortedComments(comments: seq<Comment>): (r: seq<Comment>)
    ensures multiset(r) == multiset(comments)
    ensures forall i, j :: 0 <= i < j < |r| ==> r[i].timestamp >= r[j].timestamp
  {
    var r := SortBy(comments, NewestFirstKey);
    assert forall i, j :: 0 <= i < j < |r| ==> NewestFirstKey(r[i]) <= NewestFirstKey(r[j]);
    r
  }

  /** Comments with the same timestamp keep the order they were given in (the sort is stable). */
  lemma SortedCommentsStable(comments: seq<Comment>, t: int)
    ensures Filter(SortedComments(comments), (c: Comment) => c.timestamp == t)
         == Filter(comments, (c: Comment) => c.timestamp == t)
  {
    SortStableFilter(comments, NewestFirstKey, -t, (c: Comment) => c.timestamp == t);
  }

  /** What `ShowCommentsModal` shows: nothing when closed; otherwise the comments (an absent
      prop defaulting to `[]`) newest first, empty meaning "No comments yet". */
  function ShownComments(isOpen: bool, comments: Option<seq<Comment>>): (r: Option<seq<Comment>>)
    ensures !isOpen <==> r == None
    ensures isOpen ==> multiset(r.value) == multiset(comments.GetOr([]))
    ensures isOpen ==> (r.value == [] <==> comments.GetOr([]) == [])
    ensures isOpen ==> forall i, j :: 0 <= i < j < |r.value| ==> r.value[i].timestamp >= r.value[j].timestamp
  {
    if !isOpen then None
    else
      var r := SortedComments(comments.GetOr([]));
      assert |r| == |multiset(r)|;
      Some(r)
  }
}
