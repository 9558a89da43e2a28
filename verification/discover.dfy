/** The category filter of the discover page: the list of all events,
    narrowed to those carrying the chosen category as a tag. */
module Discover {
  import opened Options
  import opened Schema
  import Seqs

  /** The category that switches the filter off. */
  const AllEvents: string := "All Events"

  /** The category chips the page offers. */
  const Categories: seq<string> := [AllEvents, "Nightlife", "Live Music", "DJ Sets", "Festivals"]

  /** `toLowerCase` on one character, for the ASCII letters. */
  function LowerChar(c: char): char {
    if 'A' <= c <= 'Z' then (c as int + 32) as char else c
  }

  /** `toLowerCase` on a string, character by character: no upper-case
      letter is left, each upper-case letter becomes its lower-case partner,
      and every other character is kept. */
  function Lower(s: string): (r: string)
    ensures |r| == |s|
    ensures forall i :: 0 <= i < |r| ==> !('A' <= r[i] <= 'Z')
    ensures forall i :: 0 <= i < |s| && !('A' <= s[i] <= 'Z') ==> r[i] == s[i]
    ensures forall i :: 0 <= i < |s| && 'A' <= s[i] <= 'Z' ==> 'a' <= r[i] <= 'z' && r[i] as int - 'a' as int == s[i] as int - 'A' as int
  {
    seq(|s|, i requires 0 <= i < |s| => LowerChar(s[i]))
  }

  /** Two strings agree up to the case of ASCII letters. */
  predicate SameIgnoringCase(a: string, b: string) {
    Lower(a) == Lower(b)
  }

  /** Some tag of `e` names `category`, ignoring case. */
  predicate Tagged(e: Event, category: string) {
    exists i :: 0 <= i < |e.tags| && SameIgnoringCase(e.tags[i], category)
  }

  /** The filter's predicate: everything under "All Events", otherwise the
      events tagged with the category. */
  predicate Keeps(category: string, e: Event) {
    category == AllEvents || Tagged(e, category)
  }

  /** `allEvents?.filter(...)`: undefined while the list has not loaded,
      otherwise the kept events in their original order. */
  function FilterEvents(events: Option<seq<Event>>, category: string): (r: Option<seq<Event>>)
    ensures r.None? <==> events.None?
    ensures r.Some? ==> Seqs.IsSubseq(r.value, events.value)
    ensures r.Some? ==> forall i :: 0 <= i < |r.value| ==> Keeps(category, r.value[i])
    ensures r.Some? ==> forall e :: e in r.value <==> e in events.value && Keeps(category, e)
    ensures r.Some? ==> forall e :: multiset(r.value)[e] == if Keeps(category, e) then multiset(events.value)[e] else 0
  {
    match events
    case None => None
    case Some(es) =>
      var kept := Seqs.Filter(es, (e: Event) => Keeps(category, e));
      forall e ensures e in kept <==> e in es && Keeps(category, e) {
        Seqs.FilterMembers(es, (e: Event) => Keeps(category, e), e);
      }
      Some(kept)
  }

  /** Under "All Events" the list comes back exactly as loaded. */
  lemma AllEventsKeepsAll(events: seq<Event>)
    ensures FilterEvents(Some(events), AllEvents) == Some(events)
  {
    Seqs.FilterAll(events, (e: Event) => Keeps(AllEvents, e));
  }

  /** The chips as the page offers them: the first shows every event, and
      each of the others narrows the list to the events tagged with its
      own name. */
  lemma ChipsFilter(events: seq<Event>, i: int)
    requires 0 <= i < |Categories|
    ensures i == 0 ==> FilterEvents(Some(events), Categories[i]) == Some(events)
    ensures i > 0 ==>
      forall e :: e in FilterEvents(Some(events), Categories[i]).value <==> e in events && Tagged(e, Categories[i])
  {
    if i == 0 {
      AllEventsKeepsAll(events);
    } else {
      assert Categories[i] != AllEvents by {
        assert Categories[i][0] != AllEvents[0];
      }
    }
  }

  /** Filtering twice by the same category is filtering once. */
  lemma FilterIdempotent(events: Option<seq<Event>>, category: string)
    ensures FilterEvents(FilterEvents(events, category), category) == FilterEvents(events, category)
  {
    if events.Some? {
      var once := FilterEvents(events, category).value;
      Seqs.FilterAll(once, (e: Event) => Keeps(category, e));
    }
  }

  /** Lower-casing is idempotent. */
  lemma LowerIdempotent(s: string)
    ensures Lower(Lower(s)) == Lower(s)
  {
    var once := Lower(s);
    assert forall i :: 0 <= i < |once| ==> Lower(once)[i] == once[i];
  }

  /** The case of the category does not matter, other than for the
      "All Events" switch itself: any spelling other than the exact one
      filters by tag, and "all events" keeps only events tagged so. */
  lemma CaseOfCategoryIrrelevant(category: string, e: Event)
    requires category != AllEvents
    ensures Keeps(category, e) <==> Keeps(Lower(category), e)
  {
    LowerIdempotent(category);
    assert Lower(category) != AllEvents by {
      if |category| == |AllEvents| {
        assert Lower(category)[0] != 'A';
      }
    }
    if Tagged(e, category) {
      var i :| 0 <= i < |e.tags| && SameIgnoringCase(e.tags[i], category);
      assert SameIgnoringCase(e.tags[i], Lower(category));
    }
    if Tagged(e, Lower(category)) {
      var i :| 0 <= i < |e.tags| && SameIgnoringCase(e.tags[i], Lower(category));
      assert SameIgnoringCase(e.tags[i], category);
    }
  }

  /** An event with just the tags `tags`, for the examples below. */
  function WithTags(e: Event, tags: seq<string>): Event {
    e.(tags := tags)
  }

  /** Matching compares whole tags, not prefixes: "Festivals" does not
      select an event tagged "Festival", nor "DJ Sets" one tagged "DJ";
      "festivals" in any case does select "Festivals". */
  lemma WholeTagsOnly(e: Event)
    ensures !Keeps("Festivals", WithTags(e, ["Festival"]))
    ensures !Keeps("DJ Sets", WithTags(e, ["DJ"]))
    ensures Keeps("Festivals", WithTags(e, ["FESTIVALS"]))
  {
    var f := WithTags(e, ["Festival"]);
    assert |Lower(f.tags[0])| != |Lower("Festivals")|;
    var d := WithTags(e, ["DJ"]);
    assert |Lower(d.tags[0])| != |Lower("DJ Sets")|;
    var g := WithTags(e, ["FESTIVALS"]);
    assert Lower(g.tags[0]) == "festivals" == Lower("Festivals");
  }
}
