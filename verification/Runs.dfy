// How runs are put together: event after event, and stretch after stretch.
module Runs {
  import opened World

  // The events happen one after the other from w on, and lead to w'.
  ghost predicate Follows(w: World, events: seq<Event>, w': World)
    decreases |events|
  {
    if events == [] then w == w' else Enabled(w, events[0]) && Follows(Apply(w, events[0]), events[1..], w')
  }

  lemma FollowsNext(w: World, e: Event, events: seq<Event>, w': World)
    requires Enabled(w, e) && Follows(Apply(w, e), events, w')
    ensures Follows(w, [e] + events, w')
  {
    hide Enabled, Apply;
    assert ([e] + events)[1..] == events;
  }

  lemma FollowsOnce(w: World, e: Event)
    requires Enabled(w, e)
    ensures Follows(w, [e], Apply(w, e))
  {
    FollowsNext(w, e, [], Apply(w, e));
  }

  lemma {:induction false} ExtendSteps(worlds: seq<World>, events: seq<Event>, more: seq<Event>, w': World)
    returns (worlds': seq<World>)
    requires Steps(worlds, events) && Follows(worlds[|events|], more, w')
    ensures Steps(worlds', events + more) && worlds <= worlds' && worlds'[|events| + |more|] == w'
    decreases |more|
  {
    hide Enabled, Apply;
    if more == [] {
      worlds' := worlds;
      assert events + more == events;
    } else {
      var longer, e := worlds + [Apply(worlds[|events|], more[0])], events + [more[0]];
      assert Steps(longer, e);
      worlds' := ExtendSteps(longer, e, more[1..], w');
      assert events + more == e + more[1..];
    }
  }

  // A run goes on by any events that may follow its last world.
  lemma ExtendRun(worlds: seq<World>, events: seq<Event>, more: seq<Event>, w': World) returns (worlds': seq<World>)
    requires IsRun(worlds, events) && Follows(worlds[|events|], more, w')
    ensures IsRun(worlds', events + more) && worlds <= worlds' && worlds'[|events| + |more|] == w'
  {
    hide Enabled, Apply, Follows;
    worlds' := ExtendSteps(worlds, events, more, w');
  }

  ghost predicate Reaches(w: World, w': World) {
    exists worlds, events :: Steps(worlds, events) && worlds[0] == w && worlds[|events|] == w'
  }

  lemma ReachesSelf(w: World)
    ensures Reaches(w, w)
  {
    assert Steps([w], []);
  }

  // A run goes on to every world that can be reached from its last one.
  lemma GoesOn(worlds: seq<World>, events: seq<Event>, w': World) returns (worlds': seq<World>, events': seq<Event>)
    requires IsRun(worlds, events) && Reaches(worlds[|events|], w')
    ensures IsRun(worlds', events') && worlds <= worlds' && events <= events' && worlds'[|events'|] == w'
  {
    hide Genesis, Enabled, Apply;
    var more: seq<World>, moreEvents: seq<Event> :|
      Steps(more, moreEvents) && more[0] == worlds[|events|] && more[|moreEvents|] == w';
    worlds', events' := worlds + more[1..], events + moreEvents;
    forall k {:trigger events'[k]} | 0 <= k < |events'|
      ensures Enabled(worlds'[k], events'[k]) && worlds'[k + 1] == Apply(worlds'[k], events'[k])
    {
      if k < |events| {
        assert events'[k] == events[k];
      } else {
        assert events'[k] == moreEvents[k - |events|];
      }
    }
  }

  lemma ReachesNext(v: World, w: World, e: Event)
    requires Reaches(v, w) && Enabled(w, e)
    ensures Reaches(v, Apply(w, e))
  {
    hide Enabled, Apply;
    var worlds: seq<World>, events: seq<Event> :| Steps(worlds, events) && worlds[0] == v && worlds[|events|] == w;
    assert Steps(worlds + [Apply(w, e)], events + [e]);
  }
}
