/** The preferences form state and its two rules: the atmosphere checkbox
    list and the condition for enabling the save button. */
module Preferences {

  datatype PreferenceState = PreferenceState(
    matchaType: string,
    sweetness: seq<int>,
    priceRange: string,
    atmosphere: seq<string>,
    experience: string,
    notes: string)

  /** The state the page starts in. */
  function Initial(): (p: PreferenceState)
    ensures p.matchaType == "" && p.priceRange == "" && p.experience == "" && p.notes == ""
    ensures p.sweetness == [50] && p.atmosphere == []
  {
    PreferenceState("", [50], "", [], "", "")
  }

  /** `prev.atmosphere.filter(item => item !== a)`. */
  function Remove(items: seq<string>, a: string): (r: seq<string>)
    ensures a !in r
    ensures forall x :: x in r <==> x in items && x != a
    ensures |r| <= |items|
  {
    if |items| == 0 then []
    else (if items[0] == a then [] else [items[0]]) + Remove(items[1..], a)
  }

  /** `r` is `items` with some entries dropped, the rest in their order. */
  predicate SubsequenceOf(r: seq<string>, items: seq<string>)
    decreases |items|
  {
    if |r| == 0 then true
    else if |items| == 0 then false
    else if r[0] == items[0] then SubsequenceOf(r[1..], items[1..])
    else SubsequenceOf(r, items[1..])
  }

  /** Removing keeps the other entries in their order, and removes nothing
      else: every entry other than `a` survives, as often as it occurred. */
  lemma {:induction false} RemoveKeepsOrder(items: seq<string>, a: string)
    ensures SubsequenceOf(Remove(items, a), items)
    ensures |Remove(items, a)| == |items| - multiset(items)[a]
    decreases |items|
  {
    if |items| > 0 {
      RemoveKeepsOrder(items[1..], a);
      assert items == [items[0]] + items[1..];
      assert multiset(items) == multiset{items[0]} + multiset(items[1..]);
      var r := Remove(items, a);
      if items[0] != a {
        assert r[0] == items[0] && r[1..] == Remove(items[1..], a);
      } else {
        assert r == Remove(items[1..], a);
        assert r == [] || r[0] != items[0];
      }
    }
  }

  /** `handleAtmosphereChange(a, checked)`: checking appends the id;
      unchecking removes every occurrence. Only the list changes. */
  function AtmosphereChange(p: PreferenceState, a: string, checked: bool): (q: PreferenceState)
    ensures checked ==> q.atmosphere == p.atmosphere + [a]
    ensures !checked ==> a !in q.atmosphere && forall x :: x != a ==> (x in q.atmosphere <==> x in p.atmosphere)
    ensures q.(atmosphere := p.atmosphere) == p
  {
    p.(atmosphere := if checked then p.atmosphere + [a] else Remove(p.atmosphere, a))
  }

  /** The checkbox for `a` shows ticked after checking it and unticked
      after unchecking it, whatever it showed before. */
  lemma CheckboxFollowsClick(p: PreferenceState, a: string, checked: bool)
    ensures (a in AtmosphereChange(p, a, checked).atmosphere) == checked
  {
  }

  /** `canProceed`: the three radio choices are all made. */
  predicate CanProceed(p: PreferenceState) {
    p.matchaType != "" && p.priceRange != "" && p.experience != ""
  }

  /** The page cannot be saved before a choice is made, and atmosphere
      clicks never change whether it can. */
  lemma CanProceedRules(p: PreferenceState, a: string, checked: bool)
    ensures !CanProceed(Initial())
    ensures CanProceed(AtmosphereChange(p, a, checked)) == CanProceed(p)
    ensures CanProceed(p) <==> |p.matchaType| > 0 && |p.priceRange| > 0 && |p.experience| > 0
  {
  }
}
