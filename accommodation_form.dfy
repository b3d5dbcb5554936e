/** The list editors of the add-accommodation form: amenities, house rules
    and images. Every handler builds a new list from the previous one. */
module AccommodationForm {
  import opened Base

  /** `amenities.filter(x => x !== id)`: every other amenity, in order and
      as often as it was listed. */
  function Without(ams: seq<string>, id: string): (r: seq<string>)
    ensures id !in r
    ensures forall x :: x != id ==> (x in r <==> x in ams)
    ensures forall x :: multiset(r)[x] == if x != id then multiset(ams)[x] else 0
    ensures IsSubsequence(r, ams)
  {
    WhereIsSubsequence(ams, (x: string) => x != id);
    WhereCounts(ams, (x: string) => x != id);
    Where(ams, (x: string) => x != id)
  }

  /** `handleAmenityToggle`: a selected amenity is removed (every
      occurrence), an unselected one is appended. */
  function ToggleAmenity(ams: seq<string>, id: string): (r: seq<string>)
    ensures id in r <==> id !in ams
    ensures id !in ams ==> r == ams + [id]
    ensures forall x :: x != id ==> (x in r <==> x in ams)
    ensures Without(r, id) == Without(ams, id)
  {
    if id in ams then
      WhereNarrowed(ams, (x: string) => x != id, (x: string) => x != id);
      Without(ams, id)
    else
      WhereAppend(ams, [id], (x: string) => x != id);
      assert Where([id], (x: string) => x != id) == [];
      ams + [id]
  }

  /** Toggling an unselected amenity twice gives the list back. */
  lemma ToggleTwiceRestores(ams: seq<string>, id: string)
    requires id !in ams
    ensures ToggleAmenity(ToggleAmenity(ams, id), id) == ams
  {
    var once := ToggleAmenity(ams, id);
    assert once == ams + [id] && id in once;
    assert ToggleAmenity(once, id) == Without(once, id) == Without(ams, id);
    WhereKeepsAll(ams, (x: string) => x != id);
  }

  /** Toggling a selected amenity twice moves it to the end, with any
      duplicates collapsed. */
  lemma ToggleTwiceMovesToEnd(ams: seq<string>, id: string)
    requires id in ams
    ensures ToggleAmenity(ToggleAmenity(ams, id), id) == Without(ams, id) + [id]
  {
  }

  /** `handleAddRule`: one empty rule at the end. */
  function AddRule(rules: seq<string>): (r: seq<string>)
    ensures |r| == |rules| + 1 && r[..|rules|] == rules && r[|rules|] == ""
  {
    rules + [""]
  }

  /** `handleRuleChange`: position `index` takes `value`; every other
      position, and the length, are kept. */
  function EditRule(rules: seq<string>, index: int, value: string): (r: seq<string>)
    ensures |r| == |rules|
    ensures forall i :: 0 <= i < |rules| ==> r[i] == if i == index then value else rules[i]
  {
    seq(|rules|, i requires 0 <= i < |rules| => if i == index then value else rules[i])
  }

  /** Editing a rule to what it already says changes nothing; editing it
      twice keeps only the second value. */
  lemma EditRuleLaws(rules: seq<string>, index: int, v: string, w: string)
    ensures 0 <= index < |rules| ==> EditRule(rules, index, rules[index]) == rules
    ensures EditRule(EditRule(rules, index, v), index, w) == EditRule(rules, index, w)
  {
  }

  /** `handleImageChange`: the chosen files after the existing ones. */
  function AddImages<F>(images: seq<F>, files: seq<F>): (r: seq<F>)
    ensures |r| == |images| + |files|
    ensures r[..|images|] == images && r[|images|..] == files
  {
    images + files
  }

  /** A click on the rules editor. `RemoveRule` is the minus button next to
      rule `index`, `EditRule` a keystroke in its input. */
  datatype RuleAction = AddRuleClick | RemoveRuleClick(index: int) | EditRuleInput(index: int, value: string)

  /** The controls on screen: one input per rule, and a minus button per
      rule only while there is more than one. */
  predicate Offered(rules: seq<string>, a: RuleAction) {
    match a
    case AddRuleClick => true
    case RemoveRuleClick(i) => |rules| > 1 && 0 <= i < |rules|
    case EditRuleInput(i, _) => 0 <= i < |rules|
  }

  function ApplyRule(rules: seq<string>, a: RuleAction): seq<string> {
    match a
    case AddRuleClick => AddRule(rules)
    case RemoveRuleClick(i) => DropIndex(rules, i)
    case EditRuleInput(i, v) => EditRule(rules, i, v)
  }

  /** A session on the rules editor: actions on controls that are not on
      screen cannot happen and are skipped. */
  function RunRules(rules: seq<string>, actions: seq<RuleAction>): seq<string>
    decreases |actions|
  {
    if actions == [] then rules
    else
      var next := if Offered(rules, actions[0]) then ApplyRule(rules, actions[0]) else rules;
      RunRules(next, actions[1..])
  }

  /** Starting from `['']`, no sequence of clicks empties the rules list. */
  lemma {:induction false} RulesNeverEmpty(rules: seq<string>, actions: seq<RuleAction>)
    requires |rules| >= 1
    ensures |RunRules(rules, actions)| >= 1
    decreases |actions|
  {
    if actions != [] {
      var next := if Offered(rules, actions[0]) then ApplyRule(rules, actions[0]) else rules;
      assert |next| >= 1;
      RulesNeverEmpty(next, actions[1..]);
    }
  }

  lemma InitialRulesNeverEmpty(actions: seq<RuleAction>)
    ensures |RunRules([""], actions)| >= 1
  {
    RulesNeverEmpty([""], actions);
  }
}
