/** The settings page (settings.component.ts): the current rule set, the
    built-in presets, and the user's custom presets, which are created
    from the current rules under a slug of their name, applied by id and
    deleted by id. */
module Settings {

  import opened Options
  import opened Models
  import opened Text
  import opened Storage

  // ---------------------------------------------------------------------
  // Preset ids

  /** The characters the id slug keeps: a-z and 0-9. */
  predicate IsSlugChar(c: char) {
    'a' <= c <= 'z' || '0' <= c <= '9'
  }

  /** replace(/[^a-z0-9]+/g, '-'): each maximal run of other characters
      becomes one '-'. The result holds only slug characters and '-', never
      two '-' in a row, and ends in '-' exactly when s ends outside a-z0-9. */
  function CollapseRuns(s: string): (r: string)
    ensures |r| <= |s| && (|r| == 0 <==> |s| == 0)
    ensures forall i :: 0 <= i < |r| ==> IsSlugChar(r[i]) || r[i] == '-'
    ensures forall i :: 0 < i < |r| ==> !(r[i - 1] == '-' && r[i] == '-')
    ensures |r| > 0 ==> (r[|r| - 1] == '-' <==> !IsSlugChar(s[|s| - 1]))
  {
    if s == [] then []
    else
      var init, c := s[..|s| - 1], s[|s| - 1];
      if IsSlugChar(c) then CollapseRuns(init) + [c]
      else if |init| > 0 && !IsSlugChar(init[|init| - 1]) then CollapseRuns(init)
      else CollapseRuns(init) + "-"
  }

  /** The a-z0-9 characters of s, in order. */
  function SlugChars(s: string): string {
    if s == [] then []
    else SlugChars(s[..|s| - 1]) + (if IsSlugChar(s[|s| - 1]) then [s[|s| - 1]] else [])
  }

  /** Collapsing keeps every a-z0-9 character, in order, and drops no other
      information than the length of the runs between them. */
  lemma {:induction false} CollapseKeepsSlugChars(s: string)
    ensures SlugChars(CollapseRuns(s)) == SlugChars(s)
  {
    if s != [] {
      var init, c := s[..|s| - 1], s[|s| - 1];
      var r0 := CollapseRuns(init);
      CollapseKeepsSlugChars(init);
      var r := CollapseRuns(s);
      if IsSlugChar(c) {
        assert r == r0 + [c];
        assert r[..|r| - 1] == r0;
      } else if !(|init| > 0 && !IsSlugChar(init[|init| - 1])) {
        assert r == r0 + "-";
        assert r[..|r| - 1] == r0;
      }
    }
  }

  /** The slug starts with '-' exactly when s starts outside a-z0-9. */
  lemma {:induction false} CollapseStart(s: string)
    requires |s| > 0
    ensures CollapseRuns(s)[0] == '-' <==> !IsSlugChar(s[0])
  {
    if |s| > 1 {
      var init := s[..|s| - 1];
      CollapseStart(init);
      assert init[0] == s[0];
    }
  }

  /** Collapsing a slug changes nothing: it has no run longer than one. */
  lemma {:induction false} CollapseIdempotent(s: string)
    ensures CollapseRuns(CollapseRuns(s)) == CollapseRuns(s)
  {
    if s != [] {
      var init, c := s[..|s| - 1], s[|s| - 1];
      var r0 := CollapseRuns(init);
      CollapseIdempotent(init);
      var r := CollapseRuns(s);
      if r != r0 {
        assert r[..|r| - 1] == r0;
        if !IsSlugChar(r[|r| - 1]) {
          assert r[|r| - 1] == '-';
          assert |r0| > 0 ==> r0[|r0| - 1] != '-';
        }
      }
    }
  }

  /** The id of a custom preset named `name`. */
  function PresetId(name: string): (id: string)
    ensures |id| >= |"custom-"| && id[..|"custom-"|] == "custom-"
    ensures |id| > |"custom-"| <==> |name| > 0
  {
    "custom-" + CollapseRuns(LowerAscii(name))
  }

  // ---------------------------------------------------------------------
  // Looking presets up

  /** Array.prototype.find by id: the first preset with that id. */
  function FindById(list: seq<RuleSet>, id: string): (r: Option<RuleSet>)
    ensures r.None? <==> forall i :: 0 <= i < |list| ==> list[i].id != id
    ensures r.Some? ==> r.value in list && r.value.id == id
  {
    if list == [] then None
    else if list[0].id == id then Some(list[0])
    else FindById(list[1..], id)
  }

  /** find returns the first preset carrying the id. */
  lemma {:induction false} FindFirst(list: seq<RuleSet>, id: string, i: int)
    requires 0 <= i < |list| && list[i].id == id
    requires forall j :: 0 <= j < i ==> list[j].id != id
    ensures FindById(list, id) == Some(list[i])
  {
    if i > 0 {
      FindFirst(list[1..], id, i - 1);
    }
  }

  /** Built-in presets come first, so a built-in id shadows custom presets
      with the same id. */
  lemma {:induction false} FindPrefersFirst(a: seq<RuleSet>, b: seq<RuleSet>, id: string)
    ensures FindById(a + b, id) == if FindById(a, id).Some? then FindById(a, id) else FindById(b, id)
  {
    if a != [] {
      FindPrefersFirst(a[1..], b, id);
      assert (a + b)[1..] == a[1..] + b;
    } else {
      assert a + b == b;
    }
  }

  /** Array.prototype.some by id. */
  predicate HasId(list: seq<RuleSet>, id: string) {
    exists i :: 0 <= i < |list| && list[i].id == id
  }

  /** All ids of the list differ. */
  predicate DistinctIds(list: seq<RuleSet>) {
    forall i, j :: 0 <= i < j < |list| ==> list[i].id != list[j].id
  }

  // ---------------------------------------------------------------------
  // createCustomPreset, as a value

  /** The preset createCustomPreset adds from the current rules and the
      typed name, or None when it adds nothing: the name is blank, or its
      id is taken by a built-in or custom preset. */
  function NewPreset(rules: RuleSet, rawName: string, all: seq<RuleSet>): (r: Option<RuleSet>)
    ensures r.None? <==> Trim(rawName) == "" || HasId(all, PresetId(Trim(rawName)))
    ensures r.Some? ==> r.value == rules.(id := PresetId(Trim(rawName)), name := Trim(rawName))
  {
    var name := Trim(rawName);
    if name == "" then None
    else
      var id := PresetId(name);
      if HasId(all, id) then None
      else Some(rules.(id := id, name := name))
  }

  /** A created preset plays by the current rules: it has their deck count
      and flags, so it selects the same strategy. */
  lemma NewPresetKeepsRules(rules: RuleSet, rawName: string, all: seq<RuleSet>)
    requires NewPreset(rules, rawName, all).Some?
    ensures var p := NewPreset(rules, rawName, all).value;
      p.decks == rules.decks && p.hitSoft17 == rules.hitSoft17
      && p.doubleAfterSplit == rules.doubleAfterSplit && p.lateSurrender == rules.lateSurrender
      && p.name != "" && p.id[..|"custom-"|] == "custom-"
  {
  }

  /** Adding the created preset keeps the ids distinct, and applying its id
      afterwards finds exactly that preset. */
  lemma NewPresetApplies(rules: RuleSet, rawName: string, all: seq<RuleSet>)
    requires NewPreset(rules, rawName, all).Some?
    ensures var p := NewPreset(rules, rawName, all).value;
      (DistinctIds(all) ==> DistinctIds(all + [p]))
      && FindById(all + [p], p.id) == Some(p)
  {
    var p := NewPreset(rules, rawName, all).value;
    var ext := all + [p];
    assert !HasId(all, p.id);
    assert forall i :: 0 <= i < |all| ==> ext[i] == all[i];
    FindFirst(ext, p.id, |all|);
  }

  /** Deleting a custom preset by id leaves only a built-in with that id to
      be applied. */
  lemma DeletedNotApplied(builtIns: seq<RuleSet>, customs: seq<RuleSet>, id: string)
    ensures FindById(builtIns + WithoutId(customs, id), id) == FindById(builtIns, id)
  {
    FindPrefersFirst(builtIns, WithoutId(customs, id), id);
    var rest := WithoutId(customs, id);
    assert forall i :: 0 <= i < |rest| ==> rest[i] in rest;
  }

  // ---------------------------------------------------------------------
  // The component

  /** The four built-in presets. */
  const Presets: seq<RuleSet> := [
    RuleSet("vegas-6d-s17", "Vegas 6D S17 DAS", 6, false, true, false),
    RuleSet("vegas-6d-h17", "Vegas 6D H17 DAS", 6, true, true, false),
    RuleSet("atlantic-6d-h17-ls", "Atlantic 6D H17 DAS LS", 6, true, true, true),
    RuleSet("single-deck-h17", "Single Deck H17 No DAS", 1, true, false, false)]

  /** The rules shown before a saved rule set is read. */
  const DefaultRules: RuleSet := RuleSet("default", "6D", 6, false, true, false)

  lemma PresetIdsDistinct()
    ensures DistinctIds(Presets)
  {
  }

  /** Applying a built-in preset's id selects that built-in, whatever the
      custom presets are. */
  lemma BuiltInApplies(customs: seq<RuleSet>, i: int)
    requires 0 <= i < |Presets|
    ensures FindById(Presets + customs, Presets[i].id) == Some(Presets[i])
  {
    PresetIdsDistinct();
    FindFirst(Presets, Presets[i].id, i);
    FindPrefersFirst(Presets, customs, Presets[i].id);
  }

  class SettingsComponent {
    var rules: RuleSet
    var difficulty: Difficulty
    var customPresets: seq<RuleSet>
    var newPresetName: string
    const storage: StorageService

    ghost predicate Valid()
      reads this, storage
    {
      storage.Valid()
    }

    /** The saved rule set if there is one, else the default rules; the
        difficulty and custom presets as the storage service gives them. */
    constructor (storage: StorageService, saved: Option<RuleSet>, rawDifficulty: Option<string>)
      requires storage.Valid()
      modifies storage
      ensures Valid() && this.storage == storage
      ensures rules == saved.GetOr(DefaultRules) && newPresetName == ""
      ensures customPresets == old(storage.customRules) == storage.customRules
      ensures difficulty == (if old(storage.difficulty).Some? then old(storage.difficulty).value
                             else ParseDifficulty(rawDifficulty).GetOr(All))
      ensures storage.difficulty == Some(difficulty)
      ensures storage.history == old(storage.history) && storage.srs == old(storage.srs) && storage.mastery == old(storage.mastery)
      ensures storage.currentStreak == old(storage.currentStreak) && storage.bestStreak == old(storage.bestStreak)
    {
      this.storage := storage;
      rules := DefaultRules;
      newPresetName := "";
      customPresets := [];
      new;
      if saved.Some? {
        rules := saved.value;
      }
      difficulty := storage.LoadDifficulty(rawDifficulty);
      customPresets := storage.customRules;
    }

    /** applyPreset: the first preset with the id, built-ins before custom
        ones, becomes the rules; an unknown id changes nothing. */
    method ApplyPreset(id: string)
      modifies this`rules
      ensures FindById(Presets + customPresets, id).None? ==> rules == old(rules)
      ensures FindById(Presets + customPresets, id).Some? ==> rules == FindById(Presets + customPresets, id).value
    {
      var preset := FindById(Presets + customPresets, id);
      if preset.None? {
        return;
      }
      rules := preset.value;
    }

    /** createCustomPreset: a blank name or a taken id changes nothing;
        otherwise the preset built from the current rules is appended to
        the custom presets and to storage, becomes the rules, and the name
        field is cleared. */
    method CreateCustomPreset()
      requires Valid()
      modifies this`customPresets, this`newPresetName, this`rules, storage
      ensures Valid()
      ensures var made := NewPreset(old(rules), old(newPresetName), Presets + old(customPresets));
        if made.None? then
          rules == old(rules) && customPresets == old(customPresets)
          && newPresetName == old(newPresetName) && storage.customRules == old(storage.customRules)
        else
          customPresets == old(customPresets) + [made.value] && rules == made.value
          && newPresetName == "" && storage.customRules == old(storage.customRules) + [made.value]
      ensures storage.history == old(storage.history) && storage.srs == old(storage.srs) && storage.mastery == old(storage.mastery)
      ensures storage.currentStreak == old(storage.currentStreak) && storage.bestStreak == old(storage.bestStreak)
      ensures storage.difficulty == old(storage.difficulty)
    {
      ghost var made := NewPreset(rules, newPresetName, Presets + customPresets);
      var name := Trim(newPresetName);
      if name == "" {
        return;
      }
      var id := PresetId(name);
      if HasId(Presets + customPresets, id) {
        return;
      }
      assert made == Some(rules.(id := id, name := name));
      var preset := rules.(id := id, name := name);
      customPresets := customPresets + [preset];
      storage.AddCustomRuleSet(preset);
      newPresetName := "";
      rules := preset;
    }

    /** deleteCustomPreset: every custom preset with p's id goes, here and
        in storage; the others stay in order. */
    method DeleteCustomPreset(p: RuleSet)
      requires Valid()
      modifies this`customPresets, storage
      ensures Valid()
      ensures customPresets == WithoutId(old(customPresets), p.id)
      ensures storage.customRules == WithoutId(old(storage.customRules), p.id)
      ensures storage.history == old(storage.history) && storage.srs == old(storage.srs) && storage.mastery == old(storage.mastery)
      ensures storage.currentStreak == old(storage.currentStreak) && storage.bestStreak == old(storage.bestStreak)
      ensures storage.difficulty == old(storage.difficulty)
    {
      customPresets := WithoutId(customPresets, p.id);
      storage.DeleteCustomRuleSet(p.id);
    }
  }
}
