/** `_prioritize_weak_topics`: the subjects reordered so that the topics the tutor found weak come
    first, severe before moderate before mild, followed by the user's own subjects, each name once. */
module SchedulerPriority {
  import opened Wrappers
  import opened JsonValues
  import opened WeaknessAnalyzer
  import opened SchedulerSubjects
  import opened SchedulerPreferences

  const Severe: string := "severe"
  const Moderate: string := "moderate"
  const Mild: string := "mild"

  /** The topics of the weak points labelled `level`, in weak-point order (the list
      comprehensions of the source). */
  function TopicsAt(wps: seq<WeakPoint>, level: string): (ts: seq<string>)
    ensures |ts| <= |wps|
    decreases |wps|
  {
    if wps == [] then []
    else
      var last := wps[|wps| - 1];
      TopicsAt(wps[..|wps| - 1], level) + if last.difficultyLevel == level then [last.topic] else []
  }

  /** A topic is listed at `level` exactly when some weak point with that label has it. */
  lemma {:induction false} TopicsAtMembers(wps: seq<WeakPoint>, level: string)
    ensures forall t :: t in TopicsAt(wps, level) <==>
              exists i :: 0 <= i < |wps| && wps[i].difficultyLevel == level && wps[i].topic == t
    decreases |wps|
  {
    if wps != [] {
      var init := wps[..|wps| - 1];
      TopicsAtMembers(init, level);
      forall t ensures t in TopicsAt(wps, level) <==>
                         exists i :: 0 <= i < |wps| && wps[i].difficultyLevel == level && wps[i].topic == t {
        if exists i :: 0 <= i < |wps| && wps[i].difficultyLevel == level && wps[i].topic == t {
          var i :| 0 <= i < |wps| && wps[i].difficultyLevel == level && wps[i].topic == t;
          if i < |init| {
            assert init[i] == wps[i];
          }
        }
        if t in TopicsAt(init, level) {
          var i :| 0 <= i < |init| && init[i].difficultyLevel == level && init[i].topic == t;
          assert wps[i] == init[i];
        }
      }
    }
  }

  /** The three tiers accumulated in turn, before the user's subjects. */
  function SevereStage(wps: seq<WeakPoint>): seq<string> {
    AppendNew([], TopicsAt(wps, Severe), Identity)
  }

  function ModerateStage(wps: seq<WeakPoint>): seq<string> {
    AppendNew(SevereStage(wps), TopicsAt(wps, Moderate), Identity)
  }

  function MildStage(wps: seq<WeakPoint>): seq<string> {
    AppendNew(ModerateStage(wps), TopicsAt(wps, Mild), Identity)
  }

  /** `prioritized_subjects` once all four loops have run. */
  function PrioritizedSubjects(wps: seq<WeakPoint>, original: seq<string>): seq<string> {
    AppendNew(MildStage(wps), original, Identity)
  }

  /** The preferences after `_prioritize_weak_topics`: the prioritised subjects (the original ones
      if there are none), and the severe and moderate topic lists recorded with the flag. */
  function Prioritized(p: Preferences, wps: seq<WeakPoint>): Preferences {
    var ps := PrioritizedSubjects(wps, p.subjects);
    p.(subjects := if ps != [] then ps else p.subjects,
       prioritisation := Some(Prioritisation(TopicsAt(wps, Severe), TopicsAt(wps, Moderate))))
  }

  /** Updating a key after a union is updating the right-hand map. */
  lemma UnionUpdate(a: map<string, Json>, b: map<string, Json>, k: string, v: Json)
    ensures a + b[k := v] == (a + b)[k := v]
  {
  }

  /** As a dictionary, the prioritised preferences are the old ones with exactly the four keys the
      source assigns overwritten, `weak_points_prioritized` set to true. */
  lemma PrioritizedFields(p: Preferences, wps: seq<WeakPoint>)
    ensures var q := Prioritized(p, wps);
            Fields(q) == Fields(p)["subjects" := StringList(q.subjects)]
                                  ["weak_points_prioritized" := JBool(true)]
                                  ["severe_topics" := StringList(TopicsAt(wps, Severe))]
                                  ["moderate_topics" := StringList(TopicsAt(wps, Moderate))]
  {
    var q := Prioritized(p, wps);
    var sev, mod := StringList(TopicsAt(wps, Severe)), StringList(TopicsAt(wps, Moderate));
    var o := OwnFields(p);
    var o1 := o["subjects" := StringList(q.subjects)];
    var o2 := o1["weak_points_prioritized" := JBool(true)];
    var o3 := o2["severe_topics" := sev];
    var o4 := o3["moderate_topics" := mod];
    assert OwnFields(q) == o4 by {
      assert OwnFields(q).Keys == o4.Keys;
    }
    UnionUpdate(p.extra, o, "subjects", StringList(q.subjects));
    UnionUpdate(p.extra, o1, "weak_points_prioritized", JBool(true));
    UnionUpdate(p.extra, o2, "severe_topics", sev);
    UnionUpdate(p.extra, o3, "moderate_topics", mod);
  }

  /** For a string key, membership of the keys is membership of the list. */
  lemma KeysOfIdentity(xs: seq<string>)
    ensures forall x :: x in KeysOf(xs, Identity) <==> x in xs
  {
    forall x | x in xs ensures x in KeysOf(xs, Identity) {
      assert Identity(x) == x;
    }
  }

  /** The tier a subject belongs to: 0 for a severe topic, 1 for a moderate one, 2 for a mild one,
      3 for anything else (a subject of the user's alone). */
  function Rank(wps: seq<WeakPoint>, s: string): nat {
    if s in TopicsAt(wps, Severe) then 0
    else if s in TopicsAt(wps, Moderate) then 1
    else if s in TopicsAt(wps, Mild) then 2
    else 3
  }

  /** What accumulating adds: entries of `items` that were not in `acc`, and every item ends up in
      the result. */
  lemma AppendNewMembers(acc: seq<string>, items: seq<string>)
    ensures var r := AppendNew(acc, items, Identity);
            && acc <= r
            && (forall x :: x in r <==> x in acc || x in items)
            && (forall i :: |acc| <= i < |r| ==> r[i] in items && r[i] !in acc)
  {
    var r := AppendNew(acc, items, Identity);
    AppendNewElements(acc, items, Identity);
    AppendNewKeys(acc, items, Identity);
    KeysOfIdentity(acc);
    KeysOfIdentity(items);
    KeysOfIdentity(r);
  }

  lemma SevereStageRanks(wps: seq<WeakPoint>)
    ensures var s1 := SevereStage(wps);
            && (forall x :: x in s1 <==> x in TopicsAt(wps, Severe))
            && forall i :: 0 <= i < |s1| ==> Rank(wps, s1[i]) == 0
  {
    AppendNewMembers([], TopicsAt(wps, Severe));
  }

  lemma ModerateStageRanks(wps: seq<WeakPoint>)
    ensures var s1, s2 := SevereStage(wps), ModerateStage(wps);
            && s1 <= s2
            && (forall x :: x in s2 <==> x in TopicsAt(wps, Severe) || x in TopicsAt(wps, Moderate))
            && forall i :: |s1| <= i < |s2| ==> Rank(wps, s2[i]) == 1
  {
    SevereStageRanks(wps);
    AppendNewMembers(SevereStage(wps), TopicsAt(wps, Moderate));
  }

  lemma MildStageRanks(wps: seq<WeakPoint>)
    ensures var s2, s3 := ModerateStage(wps), MildStage(wps);
            && s2 <= s3
            && (forall x :: x in s3 <==> x in TopicsAt(wps, Severe) || x in TopicsAt(wps, Moderate) || x in TopicsAt(wps, Mild))
            && forall i :: |s2| <= i < |s3| ==> Rank(wps, s3[i]) == 2
  {
    ModerateStageRanks(wps);
    AppendNewMembers(ModerateStage(wps), TopicsAt(wps, Mild));
  }

  lemma OriginalStageRanks(wps: seq<WeakPoint>, original: seq<string>)
    ensures var s3, ps := MildStage(wps), PrioritizedSubjects(wps, original);
            && s3 <= ps
            && forall i :: |s3| <= i < |ps| ==> Rank(wps, ps[i]) == 3
  {
    MildStageRanks(wps);
    AppendNewMembers(MildStage(wps), original);
  }

  /** Each stage's new entries come from its tier and are not in any earlier stage's tier. */
  lemma StageEntries(wps: seq<WeakPoint>, original: seq<string>)
    ensures var s1, s2, s3, ps := SevereStage(wps), ModerateStage(wps), MildStage(wps), PrioritizedSubjects(wps, original);
            && |s1| <= |s2| <= |s3| <= |ps|
            && (forall i :: 0 <= i < |s1| ==> Rank(wps, ps[i]) == 0)
            && (forall i :: |s1| <= i < |s2| ==> Rank(wps, ps[i]) == 1)
            && (forall i :: |s2| <= i < |s3| ==> Rank(wps, ps[i]) == 2)
            && (forall i :: |s3| <= i < |ps| ==> Rank(wps, ps[i]) == 3)
  {
    var s1, s2, s3, ps := SevereStage(wps), ModerateStage(wps), MildStage(wps), PrioritizedSubjects(wps, original);
    SevereStageRanks(wps);
    ModerateStageRanks(wps);
    MildStageRanks(wps);
    OriginalStageRanks(wps, original);
    forall i | 0 <= i < |s1| ensures Rank(wps, ps[i]) == 0 {
      assert ps[i] == s3[i] == s2[i] == s1[i];
    }
    forall i | |s1| <= i < |s2| ensures Rank(wps, ps[i]) == 1 {
      assert ps[i] == s3[i] == s2[i];
    }
    forall i | |s2| <= i < |s3| ensures Rank(wps, ps[i]) == 2 {
      assert ps[i] == s3[i];
    }
  }

  /** The prioritised subjects run from severe topics through moderate and mild ones to the user's
      own subjects. */
  lemma PrioritizedOrdered(wps: seq<WeakPoint>, original: seq<string>)
    ensures var ps := PrioritizedSubjects(wps, original);
            forall i, j :: 0 <= i < j < |ps| ==> Rank(wps, ps[i]) <= Rank(wps, ps[j])
  {
    StageEntries(wps, original);
  }

  /** No subject appears twice. */
  lemma PrioritizedDistinct(wps: seq<WeakPoint>, original: seq<string>)
    ensures var ps := PrioritizedSubjects(wps, original);
            forall i, j :: 0 <= i < j < |ps| ==> ps[i] != ps[j]
  {
    var sev, mod, mil := TopicsAt(wps, Severe), TopicsAt(wps, Moderate), TopicsAt(wps, Mild);
    AppendNewDistinct([], sev, Identity);
    AppendNewDistinct(SevereStage(wps), mod, Identity);
    AppendNewDistinct(ModerateStage(wps), mil, Identity);
    AppendNewDistinct(MildStage(wps), original, Identity);
  }

  /** The prioritised subjects are exactly the topics of the severe, moderate and mild weak points
      and the original subjects: every original subject is kept, and the topic of a weak point with
      any other label appears only if it is also one of those. */
  lemma PrioritizedMembers(wps: seq<WeakPoint>, original: seq<string>)
    ensures var ps := PrioritizedSubjects(wps, original);
            forall s :: s in ps <==> (|| s in original
                                     || exists i :: 0 <= i < |wps| && wps[i].topic == s
                                                    && wps[i].difficultyLevel in {Severe, Moderate, Mild})
  {
    var sev, mod, mil := TopicsAt(wps, Severe), TopicsAt(wps, Moderate), TopicsAt(wps, Mild);
    var ps := PrioritizedSubjects(wps, original);
    AppendNewKeys([], sev, Identity);
    AppendNewKeys(SevereStage(wps), mod, Identity);
    AppendNewKeys(ModerateStage(wps), mil, Identity);
    AppendNewKeys(MildStage(wps), original, Identity);
    KeysOfIdentity([]);
    KeysOfIdentity(sev);
    KeysOfIdentity(mod);
    KeysOfIdentity(mil);
    KeysOfIdentity(original);
    KeysOfIdentity(ps);
    TopicsAtMembers(wps, Severe);
    TopicsAtMembers(wps, Moderate);
    TopicsAtMembers(wps, Mild);
    assert forall s :: s in ps <==> s in sev || s in mod || s in mil || s in original;
  }

  /** When any subject or weak topic exists the prioritised list is not empty, so the original
      subjects are used only when they are empty themselves; either way non-empty subjects stay
      non-empty. */
  lemma PrioritizedNonEmpty(p: Preferences, wps: seq<WeakPoint>)
    ensures PrioritizedSubjects(wps, p.subjects) == [] ==> p.subjects == []
    ensures |p.subjects| > 0 ==> |Prioritized(p, wps).subjects| > 0
  {
    PrioritizedMembers(wps, p.subjects);
    if p.subjects != [] {
      assert p.subjects[0] in p.subjects;
    }
  }

  /** One of the source's loops: append each item not yet in the list. */
  method AppendMissing(acc: seq<string>, items: seq<string>) returns (r: seq<string>)
    ensures r == AppendNew(acc, items, Identity)
  {
    r := acc;
    for n := 0 to |items|
      invariant r == AppendNew(acc, items[..n], Identity)
    {
      AppendNewSnoc(acc, items[..n], items[n], Identity);
      assert items[..n + 1] == items[..n] + [items[n]];
      KeysOfIdentity(r);
      if items[n] !in r {
        r := r + [items[n]];
      }
    }
    assert items[..|items|] == items;
  }

  /** `_prioritize_weak_topics`: the tier lists, the four append loops, and the update. */
  method PrioritizeWeakTopics(p: Preferences, wps: seq<WeakPoint>) returns (q: Preferences)
    ensures q == Prioritized(p, wps)
  {
    var severe := TopicsAt(wps, Severe);
    var moderate := TopicsAt(wps, Moderate);
    var mild := TopicsAt(wps, Mild);
    var ps := AppendMissing([], severe);
    ps := AppendMissing(ps, moderate);
    ps := AppendMissing(ps, mild);
    ps := AppendMissing(ps, p.subjects);
    q := p.(subjects := if ps != [] then ps else p.subjects,
            prioritisation := Some(Prioritisation(severe, moderate)));
  }
}
