/**
 Story views and reactions: rows in two tables, and the counters on the story row that every
 statement must keep equal to them.
 */
module Stories {
  import opened Common

  type Emoji = Id

  datatype Story = Story(owner: Id, viewCount: int, reactionCount: int)

  /** The tables. A view row is unique per (story, viewer), a reaction row per (story, user). */
  datatype State = State(stories: map<Id, Story>, views: set<(Id, Id)>, reactions: map<(Id, Id), Emoji>)

  function SeenStep(s: State, story: Id, viewer: Id): (State, bool) {
    if story !in s.stories || (story, viewer) in s.views then (s, false)
    else
      var t := s.stories[story];
      (s.(views := s.views + {(story, viewer)}, stories := s.stories[story := t.(viewCount := t.viewCount + 1)]), true)
  }

  /** An upsert; only a fresh row moves the counter. */
  function ReactStep(s: State, story: Id, user: Id, emoji: Emoji): State {
    if story !in s.stories then s
    else
      var t := s.stories[story];
      var added := if (story, user) in s.reactions then 0 else 1;
      s.(reactions := s.reactions[(story, user) := emoji],
         stories := s.stories[story := t.(reactionCount := t.reactionCount + added)])
  }

  function Greatest(a: int, b: int): int { if a >= b then a else b }

  function UnreactStep(s: State, story: Id, user: Id): (State, bool) {
    if (story, user) !in s.reactions then (s, false)
    else if story !in s.stories then (s.(reactions := s.reactions - {(story, user)}), false)
    else
      var t := s.stories[story];
      (s.(reactions := s.reactions - {(story, user)},
          stories := s.stories[story := t.(reactionCount := Greatest(t.reactionCount - 1, 0))]), true)
  }

  /** Deleting a story cascades to its views and reactions. */
  function DeleteStep(s: State, story: Id, owner: Id): State {
    if story !in s.stories || s.stories[story].owner != owner then s
    else State(s.stories - {story}, set p | p in s.views && p.0 != story,
               map p | p in s.reactions && p.0 != story :: s.reactions[p])
  }

  datatype Event =
    | Create(story: Id, owner: Id)
    | Seen(story: Id, user: Id)
    | React(story: Id, user: Id, emoji: Emoji)
    | Unreact(story: Id, user: Id)
    | Delete(story: Id, owner: Id)

  function Apply(s: State, e: Event): State {
    match e
    case Create(story, owner) => if story in s.stories then s else s.(stories := s.stories[story := Story(owner, 0, 0)])
    case Seen(story, user) => SeenStep(s, story, user).0
    case React(story, user, emoji) => ReactStep(s, story, user, emoji)
    case Unreact(story, user) => UnreactStep(s, story, user).0
    case Delete(story, owner) => DeleteStep(s, story, owner)
  }

  function Run(s: State, es: seq<Event>): State
    decreases |es|
  {
    if es == [] then s else Run(Apply(s, es[0]), es[1..])
  }

  const EMPTY := State(map[], {}, map[])

  // ---------- Counters agree with tables ----------

  function ViewsOf(views: set<(Id, Id)>, story: Id): set<(Id, Id)> { set p | p in views && p.0 == story }

  function ReactionsOf(reactions: map<(Id, Id), Emoji>, story: Id): set<(Id, Id)> {
    set p | p in reactions && p.0 == story
  }

  ghost predicate CountsOk(s: State, story: Id)
    requires story in s.stories
  {
    && s.stories[story].viewCount == |ViewsOf(s.views, story)|
    && s.stories[story].reactionCount == |ReactionsOf(s.reactions, story)|
  }

  ghost predicate NoOrphans(s: State) {
    (forall p :: p in s.views ==> p.0 in s.stories) && (forall p :: p in s.reactions ==> p.0 in s.stories)
  }

  ghost predicate Inv(s: State) {
    NoOrphans(s) && forall story {:trigger CountsOk(s, story)} :: story in s.stories ==> CountsOk(s, story)
  }

  lemma ViewsGrow(views: set<(Id, Id)>, p: (Id, Id), story: Id)
    requires p !in views
    ensures |ViewsOf(views + {p}, story)| == |ViewsOf(views, story)| + (if p.0 == story then 1 else 0)
  {
    if p.0 == story { assert ViewsOf(views + {p}, story) == ViewsOf(views, story) + {p}; }
    else { assert ViewsOf(views + {p}, story) == ViewsOf(views, story); }
  }

  lemma ReactionsPut(reactions: map<(Id, Id), Emoji>, p: (Id, Id), emoji: Emoji, story: Id)
    ensures |ReactionsOf(reactions[p := emoji], story)|
            == |ReactionsOf(reactions, story)| + (if p.0 == story && p !in reactions then 1 else 0)
  {
    if p.0 == story && p !in reactions {
      assert ReactionsOf(reactions[p := emoji], story) == ReactionsOf(reactions, story) + {p};
    }
    else { assert ReactionsOf(reactions[p := emoji], story) == ReactionsOf(reactions, story); }
  }

  lemma ReactionsDrop(reactions: map<(Id, Id), Emoji>, p: (Id, Id), story: Id)
    requires p in reactions
    ensures |ReactionsOf(reactions - {p}, story)| == |ReactionsOf(reactions, story)| - (if p.0 == story then 1 else 0)
  {
    if p.0 == story { assert ReactionsOf(reactions, story) == ReactionsOf(reactions - {p}, story) + {p}; }
    else { assert ReactionsOf(reactions - {p}, story) == ReactionsOf(reactions, story); }
  }

  lemma DeleteKeepsCounts(s: State, gone: Id, owner: Id, story: Id)
    requires story in DeleteStep(s, gone, owner).stories && story in s.stories && CountsOk(s, story)
    ensures CountsOk(DeleteStep(s, gone, owner), story)
  {
    if story != gone {
      assert ViewsOf(DeleteStep(s, gone, owner).views, story) == ViewsOf(s.views, story);
      assert ReactionsOf(DeleteStep(s, gone, owner).reactions, story) == ReactionsOf(s.reactions, story);
    }
  }

  lemma CreateCountsFromZero(s: State, story: Id, owner: Id)
    requires NoOrphans(s) && story !in s.stories
    ensures CountsOk(Apply(s, Create(story, owner)), story)
  {
    assert ViewsOf(s.views, story) == {} && ReactionsOf(s.reactions, story) == {};
  }

  lemma ApplyKeepsCounts(s: State, e: Event, story: Id)
    requires Inv(s) && story in Apply(s, e).stories
    ensures CountsOk(Apply(s, e), story)
  {
    if story !in s.stories {
      CreateCountsFromZero(s, story, e.owner);
    } else {
      assert CountsOk(s, story);
      match e
      case Create(_, _) =>
      case Seen(t, u) => if (t, u) !in s.views { ViewsGrow(s.views, (t, u), story); }
      case React(t, u, emoji) => ReactionsPut(s.reactions, (t, u), emoji, story);
      case Unreact(t, u) => if (t, u) in s.reactions { ReactionsDrop(s.reactions, (t, u), story); }
      case Delete(t, owner) => DeleteKeepsCounts(s, t, owner, story);
    }
  }

  lemma {:induction false} RunKeepsInv(s: State, es: seq<Event>)
    requires Inv(s)
    ensures Inv(Run(s, es))
    decreases |es|
  {
    if es != [] {
      var s' := Apply(s, es[0]);
      forall story | story in s'.stories ensures CountsOk(s', story) { ApplyKeepsCounts(s, es[0], story); }
      RunKeepsInv(s', es[1..]);
    }
  }

  /** Over every run the counters equal the row counts. */
  lemma CountersAgree(es: seq<Event>, story: Id)
    requires story in Run(EMPTY, es).stories
    ensures var s := Run(EMPTY, es);
            && s.stories[story].viewCount == |ViewsOf(s.views, story)|
            && s.stories[story].reactionCount == |ReactionsOf(s.reactions, story)|
  {
    RunKeepsInv(EMPTY, es);
    assert CountsOk(Run(EMPTY, es), story);
  }

  /** So GREATEST never clamps, and removing a reaction undoes adding it. */
  lemma ClampNeverFires(es: seq<Event>, story: Id, user: Id)
    ensures var s := Run(EMPTY, es);
            (story, user) in s.reactions ==>
              && UnreactStep(s, story, user).1
              && UnreactStep(s, story, user).0.stories[story].reactionCount == s.stories[story].reactionCount - 1
    ensures var s := Run(EMPTY, es);
            forall emoji :: story in s.stories && (story, user) !in s.reactions ==>
              UnreactStep(ReactStep(s, story, user, emoji), story, user) == (s, true)
  {
    var s := Run(EMPTY, es);
    RunKeepsInv(EMPTY, es);
    if story in s.stories { assert CountsOk(s, story); }
    if (story, user) in s.reactions { assert (story, user) in ReactionsOf(s.reactions, story); }
    forall emoji | story in s.stories && (story, user) !in s.reactions
      ensures UnreactStep(ReactStep(s, story, user, emoji), story, user) == (s, true)
    {
      var s' := UnreactStep(ReactStep(s, story, user, emoji), story, user).0;
      assert s'.reactions == s.reactions;
      assert s'.stories == s.stories;
    }
  }

  // ---------- What the rows record ----------

  /** The reaction of a user on a story, before and after a run that does not delete it: the last one stands. */
  function LastReaction(before: Option<Emoji>, es: seq<Event>, story: Id, user: Id): Option<Emoji>
    decreases |es|
  {
    if es == [] then before
    else
      var e := es[|es| - 1];
      if e.React? && e.story == story && e.user == user then Some(e.emoji)
      else if e == Unreact(story, user) then None
      else LastReaction(before, es[..|es| - 1], story, user)
  }

  function ReactionOf(s: State, story: Id, user: Id): Option<Emoji> {
    if (story, user) in s.reactions then Some(s.reactions[(story, user)]) else None
  }

  lemma {:induction false} RunLast(s: State, es: seq<Event>, e: Event)
    ensures Run(s, es + [e]) == Apply(Run(s, es), e)
    decreases |es|
  {
    if es == [] {
      assert [] + [e] == [e] && [e][1..] == [];
    } else {
      RunLast(Apply(s, es[0]), es[1..], e);
      assert (es + [e])[1..] == es[1..] + [e];
    }
  }

  /**
   Until its owner deletes it, a story keeps its owner, its viewers are exactly those who saw it, and a
   user's reaction is the last one they made, gone once they took it back.
   */
  lemma {:induction false} RowsRecordTheRun(s: State, es: seq<Event>, story: Id, user: Id)
    requires story in s.stories && Delete(story, s.stories[story].owner) !in es
    ensures var t := Run(s, es);
            && story in t.stories && t.stories[story].owner == s.stories[story].owner
            && ((story, user) in t.views <==> (story, user) in s.views || Seen(story, user) in es)
            && ReactionOf(t, story, user) == LastReaction(ReactionOf(s, story, user), es, story, user)
    decreases |es|
  {
    if es != [] {
      var init, e := es[..|es| - 1], es[|es| - 1];
      assert es == init + [e];
      RunLast(s, init, e);
      RowsRecordTheRun(s, init, story, user);
    }
  }

  /** What a caller is told: a view is the first one, or a reaction was removed, exactly when something changed. */
  lemma AnswersTellOfChange(es: seq<Event>, story: Id, user: Id)
    ensures var s := Run(EMPTY, es);
            && (SeenStep(s, story, user).1 <==> SeenStep(s, story, user).0 != s)
            && (SeenStep(s, story, user).1 <==> story in s.stories && (story, user) !in s.views)
            && (UnreactStep(s, story, user).1 <==> UnreactStep(s, story, user).0 != s)
            && (UnreactStep(s, story, user).1 <==> (story, user) in s.reactions)
  {
    RunKeepsInv(EMPTY, es);
  }

  /** The owner's deletion takes the story with all its rows and nothing else; anybody else's changes nothing. */
  lemma DeletionTakesItsRows(s: State, story: Id, caller: Id)
    requires story in s.stories
    ensures var t := Apply(s, Delete(story, caller));
            if caller != s.stories[story].owner then t == s
            else
              && t.stories == s.stories - {story}
              && (forall p :: p in t.views <==> p in s.views && p.0 != story)
              && (forall v, u :: ReactionOf(t, v, u) == if v == story then None else ReactionOf(s, v, u))
  {}

  /** A story deleted by its owner comes back only when one is created, and then without a viewer or a reaction. */
  lemma {:induction false} DeletedStaysEmpty(s: State, es: seq<Event>, story: Id, user: Id)
    requires Inv(s) && story !in s.stories && forall owner :: Create(story, owner) !in es
    ensures var t := Run(s, es);
            story !in t.stories && (story, user) !in t.views && (story, user) !in t.reactions
    decreases |es|
  {
    if es != [] {
      assert forall owner :: Create(story, owner) == es[0] ==> Create(story, owner) in es;
      RunKeepsInv(s, [es[0]]);
      assert [es[0]][1..] == [];
      assert Run(s, [es[0]]) == Apply(s, es[0]);
      DeletedStaysEmpty(Apply(s, es[0]), es[1..], story, user);
    }
  }

  // ---------- Metrics ----------

  datatype EmojiCount = EmojiCount(emoji: Emoji, count: nat)

  function Total(rows: seq<EmojiCount>): nat {
    if rows == [] then 0 else rows[0].count + Total(rows[1..])
  }

  function With(reactions: map<(Id, Id), Emoji>, rows: set<(Id, Id)>, emoji: Emoji): set<(Id, Id)> {
    set p | p in rows && p in reactions && reactions[p] == emoji
  }

  /** What GROUP BY emoji ORDER BY count DESC returns for a story. */
  ghost predicate Grouped(reactions: map<(Id, Id), Emoji>, story: Id, rows: seq<EmojiCount>) {
    && (forall i, j :: 0 <= i < j < |rows| ==> rows[i].emoji != rows[j].emoji && rows[i].count >= rows[j].count)
    && (forall i :: 0 <= i < |rows| ==>
          rows[i].count == |With(reactions, ReactionsOf(reactions, story), rows[i].emoji)|)
    && (forall i :: 0 <= i < |rows| ==> rows[i].count > 0)
    && (forall p :: p in ReactionsOf(reactions, story) ==> exists i :: 0 <= i < |rows| && rows[i].emoji == reactions[p])
  }

  /** Groups that are disjoint and cover the rows add up to them. */
  lemma {:induction false} GroupsAddUp(reactions: map<(Id, Id), Emoji>, left: set<(Id, Id)>, rows: seq<EmojiCount>)
    requires forall p :: p in left ==> p in reactions
    requires forall i, j :: 0 <= i < j < |rows| ==> rows[i].emoji != rows[j].emoji
    requires forall i :: 0 <= i < |rows| ==> rows[i].count == |With(reactions, left, rows[i].emoji)|
    requires forall p :: p in left ==> exists i :: 0 <= i < |rows| && rows[i].emoji == reactions[p]
    ensures Total(rows) == |left|
    decreases |rows|
  {
    if rows == [] {
      assert left == {};
    } else {
      var group := With(reactions, left, rows[0].emoji);
      var rest := left - group;
      forall i | 0 <= i < |rows[1..]| ensures rows[1..][i].count == |With(reactions, rest, rows[1..][i].emoji)| {
        assert With(reactions, rest, rows[1..][i].emoji) == With(reactions, left, rows[1..][i].emoji);
      }
      forall p | p in rest ensures exists i :: 0 <= i < |rows[1..]| && rows[1..][i].emoji == reactions[p] {
        var i :| 0 <= i < |rows| && rows[i].emoji == reactions[p];
        assert rows[1..][i - 1].emoji == reactions[p];
      }
      GroupsAddUp(reactions, rest, rows[1..]);
      assert left == group + rest && group !! rest;
    }
  }

  /**
   get_metrics reads the counter and then, on a possibly later state, the groups. The per-emoji
   counts add up to the reaction rows of that later state, so to the counter read before exactly
   when the number of reactions is the same; with nothing in between they always do.
   */
  lemma MetricsAddUp(es: seq<Event>, more: seq<Event>, story: Id, rows: seq<EmojiCount>)
    requires story in Run(EMPTY, es).stories && Grouped(Run(Run(EMPTY, es), more).reactions, story, rows)
    ensures var s := Run(EMPTY, es);
            var later := Run(s, more);
            && (Total(rows) == s.stories[story].reactionCount
                <==> |ReactionsOf(later.reactions, story)| == |ReactionsOf(s.reactions, story)|)
            && (story in later.stories ==> Total(rows) == later.stories[story].reactionCount)
            && (story !in later.stories ==> Total(rows) == 0)
  {
    var s := Run(EMPTY, es);
    var later := Run(s, more);
    CountersAgree(es, story);
    GroupsAddUp(later.reactions, ReactionsOf(later.reactions, story), rows);
    RunKeepsInv(EMPTY, es);
    RunKeepsInv(s, more);
    if story in later.stories {
      assert CountsOk(later, story);
    } else {
      assert ReactionsOf(later.reactions, story) == {};
    }
  }

  // ---------- The service ----------

  class StoryService {
    var stories: map<Id, Story>
    var views: set<(Id, Id)>
    var reactions: map<(Id, Id), Emoji>

    ghost function Snapshot(): State
      reads this
    {
      State(stories, views, reactions)
    }

    method MarkSeen(story: Id, viewer: Id) returns (first: bool)
      modifies this`views, this`stories
      ensures (Snapshot(), first) == SeenStep(old(Snapshot()), story, viewer)
    {
      first := false;
      if story in stories && (story, viewer) !in views {
        views := views + {(story, viewer)};
        stories := stories[story := stories[story].(viewCount := stories[story].viewCount + 1)];
        first := true;
      }
    }

    /** The row is written even when the user is deleted; only the answer is then an error. */
    method AddReaction(story: Id, user: Id, emoji: Emoji, active: bool) returns (ok: bool)
      modifies this`reactions, this`stories
      ensures Snapshot() == ReactStep(old(Snapshot()), story, user, emoji)
      ensures ok <==> active && (story, user) in reactions && reactions[(story, user)] == emoji && story in stories
    {
      if story !in stories { return false; }
      var isNew := (story, user) !in reactions;
      reactions := reactions[(story, user) := emoji];
      var count := stories[story].reactionCount + (if isNew then 1 else 0);
      stories := stories[story := stories[story].(reactionCount := count)];
      return active;
    }

    method RemoveReaction(story: Id, user: Id) returns (removed: bool)
      modifies this`reactions, this`stories
      ensures (Snapshot(), removed) == UnreactStep(old(Snapshot()), story, user)
    {
      removed := false;
      if (story, user) in reactions {
        reactions := reactions - {(story, user)};
        if story in stories {
          var n := stories[story].reactionCount - 1;
          stories := stories[story := stories[story].(reactionCount := if n >= 0 then n else 0)];
          removed := true;
        }
      }
    }
  }
}
