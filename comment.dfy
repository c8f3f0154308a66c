/**
 * The comment record: reaction counting, the reaction toggle that works on the
 * reactions array in place, and the save hook that marks edited comments.
 */
module CommentModel {
  import opened Wrappers
  import opened Sequences

  /** One entry of `reactions`: who reacted, and with what. */
  datatype Reaction = Reaction(userId: string, kind: string)

  /** The counts the reactionCounts virtual reports. */
  datatype ReactionCounts = ReactionCounts(like: nat, useful: nat, resolved: nat)

  /** How many entries of `reactions` have the reaction kind `kind`. */
  function CountKind(reactions: seq<Reaction>, kind: string): (n: nat)
    ensures n <= |reactions|
  {
    if reactions == [] then 0
    else CountKind(reactions[..|reactions| - 1], kind) + (if reactions[|reactions| - 1].kind == kind then 1 else 0)
  }

  /** Entries of distinct kinds are counted apart, so three kinds together count no more than all entries. */
  lemma {:induction false} CountsWithinLength(reactions: seq<Reaction>)
    ensures CountKind(reactions, "like") + CountKind(reactions, "useful") + CountKind(reactions, "resolved") <= |reactions|
  {
    if reactions != [] {
      CountsWithinLength(reactions[..|reactions| - 1]);
    }
  }

  /**
   * The reactionCounts virtual: one pass over the reactions, counting the three
   * known kinds and ignoring any other.
   */
  method CountReactions(reactions: seq<Reaction>) returns (counts: ReactionCounts)
    ensures counts.like == CountKind(reactions, "like")
    ensures counts.useful == CountKind(reactions, "useful")
    ensures counts.resolved == CountKind(reactions, "resolved")
    ensures counts.like + counts.useful + counts.resolved <= |reactions|
  {
    counts := ReactionCounts(0, 0, 0);
    for i := 0 to |reactions|
      invariant counts.like == CountKind(reactions[..i], "like")
      invariant counts.useful == CountKind(reactions[..i], "useful")
      invariant counts.resolved == CountKind(reactions[..i], "resolved")
    {
      assert reactions[..i + 1][..i] == reactions[..i];
      var kind := reactions[i].kind;
      if kind == "like" {
        counts := counts.(like := counts.like + 1);
      } else if kind == "useful" {
        counts := counts.(useful := counts.useful + 1);
      } else if kind == "resolved" {
        counts := counts.(resolved := counts.resolved + 1);
      }
    }
    assert reactions[..|reactions|] == reactions;
    CountsWithinLength(reactions);
  }

  datatype ToggleAction = Added | Removed

  /** The reactions after a toggle of `r`: its first copy removed if there is one, else `r` appended. */
  function Toggled(reactions: seq<Reaction>, r: Reaction): seq<Reaction> {
    if r in reactions then RemoveFirst(reactions, r) else reactions + [r]
  }

  /** Toggling a reaction that is not there, and then toggling it again, restores the list. */
  lemma ToggleTwiceRestores(reactions: seq<Reaction>, r: Reaction)
    requires r !in reactions
    ensures Toggled(Toggled(reactions, r), r) == reactions
  {
    var added := reactions + [r];
    assert added[..|reactions|] == reactions;
    assert FirstIndex(added, r) == |reactions|;
  }

  /** A toggle changes the number of copies of the toggled reaction by exactly one. */
  lemma ToggleChangesCountByOne(reactions: seq<Reaction>, r: Reaction)
    ensures r in reactions ==> multiset(Toggled(reactions, r))[r] == multiset(reactions)[r] - 1
    ensures r !in reactions ==> multiset(Toggled(reactions, r))[r] == 1 && multiset(reactions)[r] == 0
  {
  }

  /** A toggle leaves every other reaction in its original relative order. */
  lemma ToggleKeepsOthers(reactions: seq<Reaction>, r: Reaction)
    ensures Without(Toggled(reactions, r), r) == Without(reactions, r)
  {
    if r in reactions {
      RemoveFirstKeepsOthers(reactions, r);
    } else {
      AppendKeepsOthers(reactions, r);
    }
  }

  /** The fields of a stored comment the methods and the save hook touch. */
  class CommentDocument {
    const isNew: bool
    var text: string
    var commentModified: bool
    var isEdited: bool
    var editedAt: Option<int>
    var reactions: seq<Reaction>

    constructor (isNew: bool, text: string, reactions: seq<Reaction>)
      ensures this.isNew == isNew && this.text == text && this.reactions == reactions
      ensures !commentModified && !isEdited && editedAt.None?
    {
      this.isNew := isNew;
      this.text := text;
      this.reactions := reactions;
      commentModified := false;
      isEdited := false;
      editedAt := None;
    }

    /**
     * toggleReaction: looks for the first entry by this user with this kind,
     * removes it if found, appends a new one otherwise.
     */
    method ToggleReaction(userId: string, kind: string) returns (action: ToggleAction)
      modifies this
      ensures reactions == Toggled(old(reactions), Reaction(userId, kind))
      ensures action == if Reaction(userId, kind) in old(reactions) then Removed else Added
      ensures text == old(text) && isEdited == old(isEdited) && editedAt == old(editedAt)
      ensures commentModified == old(commentModified)
    {
      var index := 0;
      while index < |reactions| && !(reactions[index].userId == userId && reactions[index].kind == kind)
        invariant 0 <= index <= |reactions|
        invariant Reaction(userId, kind) !in reactions[..index]
      {
        assert reactions[..index + 1] == reactions[..index] + [reactions[index]];
        index := index + 1;
      }
      if index < |reactions| {
        assert reactions[index] == Reaction(userId, kind);
        assert FirstIndex(reactions, Reaction(userId, kind)) == index;
        reactions := reactions[..index] + reactions[index + 1..];
        action := Removed;
      } else {
        assert reactions[..index] == reactions;
        reactions := reactions + [Reaction(userId, kind)];
        action := Added;
      }
    }

    /** Assigns the comment text; Mongoose's change tracking marks it modified only when the value differs. */
    method SetText(newText: string)
      modifies this
      ensures text == newText && commentModified == (old(commentModified) || newText != old(text))
      ensures reactions == old(reactions) && isEdited == old(isEdited) && editedAt == old(editedAt)
    {
      if newText != text {
        commentModified := true;
      }
      text := newText;
    }

    /** The pre-save hook: an existing comment whose text changed is marked edited at `now`. */
    method PreSave(now: int)
      modifies this
      ensures commentModified && !isNew ==> isEdited && editedAt == Some(now)
      ensures !(commentModified && !isNew) ==> isEdited == old(isEdited) && editedAt == old(editedAt)
      ensures text == old(text) && reactions == old(reactions) && commentModified == old(commentModified)
    {
      if commentModified && !isNew {
        isEdited := true;
        editedAt := Some(now);
      }
    }
  }

  /** A new comment, even with its text changed before the first save, is saved unmarked. */
  method SaveNewComment(text: string, revised: string, now: int) returns (doc: CommentDocument)
    ensures !doc.isEdited && doc.editedAt.None? && doc.text == revised
  {
    doc := new CommentDocument(true, text, []);
    doc.SetText(revised);
    doc.PreSave(now);
  }

  /** An existing comment whose text is changed is marked edited at the time of the save. */
  method EditExistingComment(text: string, revised: string, now: int) returns (doc: CommentDocument)
    requires revised != text
    ensures doc.isEdited && doc.editedAt == Some(now) && doc.text == revised
  {
    doc := new CommentDocument(false, text, []);
    doc.SetText(revised);
    doc.PreSave(now);
  }
}
