/** MessageBuilder.findUserIdCause and getUserId: the user a build is attributed
    to, found among its own causes or through its nested upstream causes. */
module Causes {
  import opened Jenkins

  /** What the loop in findUserIdCause yields once it holds upstream cause u: the
      first user cause among u's causes, or else (the loop variable having been
      overwritten by each upstream cause in turn) the result for the LAST upstream
      cause among them, or nothing. */
  function ResolveUpstream(u: Cause): (r: Option<Cause>)
    requires u.UpstreamCause?
    ensures r.Some? ==> r.value.UserIdCause?
    ensures var cs := u.upstreamCauses;
      FirstUserIndex(cs) < |cs| ==> r == Some(cs[FirstUserIndex(cs)])
    ensures var cs := u.upstreamCauses;
      FirstUserIndex(cs) == |cs| && LastUpstreamIndex(cs) < 0 ==> r == None
    decreases u
  {
    var cs := u.upstreamCauses;
    var i := FirstUserIndex(cs);
    if i < |cs| then Some(cs[i])
    else
      var j := LastUpstreamIndex(cs);
      if j < 0 then None else ResolveUpstream(cs[j])
  }

  /** findUserIdCause on a build whose CauseAction is `action`: a direct user cause
      wins; otherwise the walk starts from the FIRST upstream cause of the action. */
  function UserIdCauseOf(action: Option<seq<Cause>>): (r: Option<Cause>)
    ensures r.Some? ==> r.value.UserIdCause?
  {
    match action
    case None => None
    case Some(cs) =>
      var i := FirstUserIndex(cs);
      if i < |cs| then Some(cs[i])
      else
        var j := FirstUpstreamIndex(cs);
        if j < |cs| then ResolveUpstream(cs[j]) else None
  }

  /** getUserId: the id of the resolved user cause; None stands for null, both when
      no cause resolves and when the cause carries no id. */
  function UserIdOf(b: Build): Option<string>
  {
    match UserIdCauseOf(b.causeAction)
    case None => None
    case Some(c) => c.userId
  }

  method FindUserIdCause(b: Build) returns (r: Option<Cause>)
    ensures r == UserIdCauseOf(b.causeAction)
  {
    if b.causeAction.None? {
      return None;
    }
    var cs := b.causeAction.value;
    var i := FirstUserIndex(cs);
    if i < |cs| {
      return Some(cs[i]);
    }
    var first := FirstUpstreamIndex(cs);
    var upstream: Option<Cause> := if first < |cs| then Some(cs[first]) else None;
    while upstream.Some?
      invariant upstream.Some? ==> upstream.value.UpstreamCause?
      invariant UserIdCauseOf(b.causeAction) == if upstream.Some? then ResolveUpstream(upstream.value) else None
      decreases upstream.Some?, if upstream.Some? then upstream.value else ScmTriggerCause
    {
      ghost var parent := upstream.value;
      var causes := upstream.value.upstreamCauses;
      upstream := None;
      for k := 0 to |causes|
        invariant forall m :: 0 <= m < k ==> !causes[m].UserIdCause?
        invariant upstream == (var j := LastUpstreamIndex(causes[..k]); if j < 0 then None else Some(causes[j]))
      {
        assert causes[..k + 1][..k] == causes[..k];
        if causes[k].UserIdCause? {
          return Some(causes[k]);
        } else if causes[k].UpstreamCause? {
          upstream := Some(causes[k]);
        }
      }
      assert causes[..|causes|] == causes;
    }
    return None;
  }

  method GetUserId(b: Build) returns (id: Option<string>)
    ensures id == UserIdOf(b)
  {
    var c := FindUserIdCause(b);
    id := if c.Some? then c.value.userId else None;
  }

  /** c sits somewhere below upstream cause u. */
  ghost predicate Occurs(c: Cause, u: Cause)
    decreases u
  {
    u.UpstreamCause? &&
    exists k :: 0 <= k < |u.upstreamCauses| &&
      (u.upstreamCauses[k] == c || Occurs(c, u.upstreamCauses[k]))
  }

  /** The resolved cause is a user cause that really occurs below u. */
  lemma {:induction false} ResolveUpstreamSound(u: Cause)
    requires u.UpstreamCause?
    ensures ResolveUpstream(u).Some? ==> Occurs(ResolveUpstream(u).value, u)
    decreases u
  {
    var cs := u.upstreamCauses;
    var i := FirstUserIndex(cs);
    if i == |cs| {
      var j := LastUpstreamIndex(cs);
      if j >= 0 {
        ResolveUpstreamSound(cs[j]);
      }
    }
  }

  /** The resolved cause is a user cause of the action itself or one found below an
      upstream cause of the action. */
  lemma UserIdCauseSound(cs: seq<Cause>)
    ensures UserIdCauseOf(Some(cs)).Some? ==>
      var c := UserIdCauseOf(Some(cs)).value;
      c.UserIdCause? && (c in cs || exists k :: 0 <= k < |cs| && Occurs(c, cs[k]))
  {
    var i := FirstUserIndex(cs);
    var j := FirstUpstreamIndex(cs);
    if i == |cs| && j < |cs| {
      ResolveUpstreamSound(cs[j]);
    }
  }

  /** A direct user cause wins over every upstream cause, in whatever position. */
  lemma DirectUserCauseWins(cs: seq<Cause>, k: nat)
    requires k < |cs| && cs[k].UserIdCause?
    requires forall m :: 0 <= m < k ==> !cs[m].UserIdCause?
    ensures UserIdCauseOf(Some(cs)) == Some(cs[k])
  {
  }

  /** At a nested level the first user cause in list order is taken, even when
      upstream causes come before it. */
  lemma NestedFirstUserCauseWins(u: Cause, k: nat)
    requires u.UpstreamCause? && k < |u.upstreamCauses| && u.upstreamCauses[k].UserIdCause?
    requires forall m :: 0 <= m < k ==> !u.upstreamCauses[m].UserIdCause?
    ensures ResolveUpstream(u) == Some(u.upstreamCauses[k])
  {
  }

  /** At a nested level without user causes the walk descends into the last
      upstream cause of the list, and ends when there is none. */
  lemma NestedDescendsIntoLastUpstream(u: Cause)
    requires u.UpstreamCause?
    requires forall m :: 0 <= m < |u.upstreamCauses| ==> !u.upstreamCauses[m].UserIdCause?
    ensures var j := LastUpstreamIndex(u.upstreamCauses);
      ResolveUpstream(u) == if j < 0 then None else ResolveUpstream(u.upstreamCauses[j])
  {
  }

  /** At the top level, without a direct user cause, the walk starts from the
      FIRST upstream cause of the action. */
  lemma TopLevelStartsFromFirstUpstream(cs: seq<Cause>, k: nat)
    requires forall m :: 0 <= m < |cs| ==> !cs[m].UserIdCause?
    requires k < |cs| && cs[k].UpstreamCause?
    requires forall m :: 0 <= m < k ==> !cs[m].UpstreamCause?
    ensures UserIdCauseOf(Some(cs)) == ResolveUpstream(cs[k])
  {
    assert FirstUserIndex(cs) == |cs|;
    assert FirstUpstreamIndex(cs) == k;
  }

  /** Two upstream causes leading to alice and to bob: listed directly in the
      action the first one wins (alice); listed one level down the last one wins
      (bob). */
  lemma FirstAtTopLastBelow()
    ensures var alice := UpstreamCause("A", 1, [UserIdCause(Some("alice"))]);
      var bob := UpstreamCause("B", 2, [UserIdCause(Some("bob"))]);
      UserIdCauseOf(Some([alice, bob])) == Some(UserIdCause(Some("alice"))) &&
      UserIdCauseOf(Some([UpstreamCause("C", 3, [alice, bob])])) == Some(UserIdCause(Some("bob")))
  {
    var alice := UpstreamCause("A", 1, [UserIdCause(Some("alice"))]);
    var bob := UpstreamCause("B", 2, [UserIdCause(Some("bob"))]);
    var both := [alice, bob];
    assert FirstUserIndex(both) == 2;
    assert FirstUpstreamIndex(both) == 0;
    assert FirstUserIndex(alice.upstreamCauses) == 0;
    assert FirstUserIndex(bob.upstreamCauses) == 0;
    var c := UpstreamCause("C", 3, both);
    assert FirstUserIndex([c]) == 1;
    assert LastUpstreamIndex(both) == 1;
  }

  /** Without a CauseAction no user is found. */
  lemma NoCauseActionNoUser(b: Build)
    requires b.causeAction.None?
    ensures UserIdOf(b) == None
  {
  }

  /** upstream -> upstream -> user "alice" resolves to "alice"; beside a sibling
      upstream cause listed after it, the user cause still wins. */
  lemma ChainScenarios()
    ensures var alice := UserIdCause(Some("alice"));
      var inner := UpstreamCause("B", 2, [alice]);
      var outer := UpstreamCause("A", 1, [inner]);
      UserIdCauseOf(Some([outer])) == Some(alice) &&
      UserIdCauseOf(Some([UpstreamCause("C", 3, [alice, inner])])) == Some(alice)
  {
    var alice := UserIdCause(Some("alice"));
    var inner := UpstreamCause("B", 2, [alice]);
    var outer := UpstreamCause("A", 1, [inner]);
    assert FirstUserIndex([outer]) == 1;
    assert FirstUserIndex(outer.upstreamCauses) == 1;
    assert LastUpstreamIndex(outer.upstreamCauses) == 0;
    assert ResolveUpstream(inner) == Some(alice);
  }
}
