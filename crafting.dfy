/**
 * Crafting rules: a setting that switches a group of bundled recipes in or out of
 * the world's datapack. On every change of the setting the rule's recipe files
 * are rewritten; in the `rug` namespace an advancement that unlocks them is
 * written beside them.
 *
 * The datapack is abstracted to the names of the files in the rule's recipe
 * directory and, for each advancement file, the list of recipes it rewards.
 */
module CraftingRules {

  const JSON := ".json"

  /** `s.startsWith(p)`. */
  predicate StartsWith(s: string, p: string)
  {
    |p| <= |s| && s[..|p|] == p
  }

  /** `s.contains(".json")`. */
  predicate ContainsJson(s: string)
  {
    exists i :: 0 <= i < |s| && StartsWith(s[i..], JSON)
  }

  /** `s.replace(".json", "")`: every occurrence removed, scanning left to right. */
  function StripJson(s: string): string
    decreases |s|
  {
    if |s| < |JSON| then s
    else if s[..|JSON|] == JSON then StripJson(s[|JSON|..])
    else [s[0]] + StripJson(s[1..])
  }

  /** A name without ".json" in it gets exactly its own ".json" suffix stripped. */
  lemma {:induction false} StripJsonSuffix(name: string)
    requires !ContainsJson(name)
    ensures StripJson(name + JSON) == name
    decreases |name|
  {
    var s := name + JSON;
    if name == [] {
      assert s[..|JSON|] == JSON && s[|JSON|..] == [];
    } else {
      assert s[..|JSON|] != JSON by {
        if |name| >= |JSON| {
          assert name[0..] == name;
          assert s[..|JSON|] == name[..|JSON|];
        } else {
          assert s[|name|] == '.' && JSON[|name|] != '.';
        }
      }
      assert !ContainsJson(name[1..]) by {
        forall i | 0 <= i < |name[1..]|
          ensures !StartsWith(name[1..][i..], JSON)
        {
          assert name[1..][i..] == name[i + 1..];
        }
      }
      StripJsonSuffix(name[1..]);
      assert s[1..] == name[1..] + JSON;
      assert [name[0]] + name[1..] == name;
    }
  }

  // ---------------------------------------------------------------------------
  // Names

  /** The file a string-valued rule installs for `recipe`: `recipe_value.json`. */
  function RecipeFile(recipe: string, value: string): string
  {
    recipe + "_" + value + JSON
  }

  /** The list of files a string-valued rule installs, one per recipe, in order. */
  function RecipeFiles(recipes: seq<string>, value: string): seq<string>
  {
    seq(|recipes|, i requires 0 <= i < |recipes| => RecipeFile(recipes[i], value))
  }

  /** An advancement reward: `"rug:" + recipeName.replace(".json", "")`. */
  function Reward(recipe: string): string
  {
    "rug:" + StripJson(recipe)
  }

  function Rewards(recipes: seq<string>): seq<string>
  {
    seq(|recipes|, i requires 0 <= i < |recipes| => Reward(recipes[i]))
  }

  /** The reward for an installed file names the recipe and the value, without the extension. */
  lemma RecipeFileReward(recipe: string, value: string)
    requires !ContainsJson(recipe + "_" + value)
    ensures Reward(RecipeFile(recipe, value)) == "rug:" + recipe + "_" + value
  {
    StripJsonSuffix(recipe + "_" + value);
  }

  /** The file starts with one of the recipe names: the installed-recipe filter keeps it. */
  predicate IsRecipeOf(file: string, recipes: seq<string>)
  {
    exists r :: r in recipes && StartsWith(file, r)
  }

  /** Every file a string-valued rule installs is found again by the filter on the next update. */
  lemma RecipeFilesAreRecipes(recipes: seq<string>, value: string)
    ensures forall f :: f in RecipeFiles(recipes, value) ==> IsRecipeOf(f, recipes)
  {
    forall f | f in RecipeFiles(recipes, value)
      ensures IsRecipeOf(f, recipes)
    {
      var i :| 0 <= i < |recipes| && f == RecipeFile(recipes[i], value);
      assert StartsWith(f, recipes[i]);
    }
  }

  /** The entries the filter adds for one listed file: the file once per recipe name it starts with. */
  function Matches(file: string, recipes: seq<string>): seq<string>
  {
    if recipes == [] then []
    else Matches(file, recipes[..|recipes| - 1]) + (if StartsWith(file, recipes[|recipes| - 1]) then [file] else [])
  }

  /** `installedRecipes` after `Files.list` has produced `listing`. */
  function Installed(listing: seq<string>, recipes: seq<string>): seq<string>
  {
    if listing == [] then []
    else Installed(listing[..|listing| - 1], recipes) + Matches(listing[|listing| - 1], recipes)
  }

  lemma {:induction false} MatchesMembers(file: string, recipes: seq<string>)
    ensures forall f :: f in Matches(file, recipes) <==> f == file && IsRecipeOf(file, recipes)
  {
    if recipes != [] {
      var init := recipes[..|recipes| - 1];
      MatchesMembers(file, init);
      assert recipes == init + [recipes[|recipes| - 1]];
      if IsRecipeOf(file, recipes) && !StartsWith(file, recipes[|recipes| - 1]) {
        var r :| r in recipes && StartsWith(file, r);
        assert r in init;
      }
    }
  }

  /** The filter lists exactly the files whose names start with one of the recipe names. */
  lemma {:induction false} InstalledMembers(listing: seq<string>, recipes: seq<string>)
    ensures forall f :: f in Installed(listing, recipes) <==> f in listing && IsRecipeOf(f, recipes)
  {
    if listing != [] {
      var init := listing[..|listing| - 1];
      InstalledMembers(init, recipes);
      MatchesMembers(listing[|listing| - 1], recipes);
      assert listing == init + [listing[|listing| - 1]];
    }
  }

  /** `installedAdvancements`: the listed names, ".json" removed, that start with the rule name. */
  function StaleAdvancements(listing: seq<string>, ruleName: string): seq<string>
  {
    if listing == [] then []
    else
      var name := StripJson(listing[|listing| - 1]);
      StaleAdvancements(listing[..|listing| - 1], ruleName) + (if StartsWith(name, ruleName) then [name] else [])
  }

  lemma {:induction false} StaleAdvancementsMembers(listing: seq<string>, ruleName: string)
    ensures forall a :: a in StaleAdvancements(listing, ruleName) <==>
      StartsWith(a, ruleName) && exists f :: f in listing && StripJson(f) == a
  {
    if listing != [] {
      var init := listing[..|listing| - 1];
      var last := listing[|listing| - 1];
      StaleAdvancementsMembers(init, ruleName);
      assert listing == init + [last];
      forall a
        ensures a in StaleAdvancements(listing, ruleName) <==>
          StartsWith(a, ruleName) && exists f :: f in listing && StripJson(f) == a
      {
        if a in StaleAdvancements(init, ruleName) {
          var f :| f in init && StripJson(f) == a;
          assert f in listing;
        } else if a in StaleAdvancements(listing, ruleName) {
          assert last in listing && StripJson(last) == a;
        }
        if StartsWith(a, ruleName) && exists f :: f in listing && StripJson(f) == a {
          var f :| f in listing && StripJson(f) == a;
          if f != last {
            assert f in init;
          }
        }
      }
    }
  }

  // ---------------------------------------------------------------------------
  // The list-building loops

  /** `tempRecipes`: one `recipe_value.json` per recipe, appended in order. */
  method RecipeFileNames(recipes: seq<string>, value: string) returns (files: seq<string>)
    ensures files == RecipeFiles(recipes, value)
  {
    files := [];
    for i := 0 to |recipes|
      invariant files == RecipeFiles(recipes[..i], value)
    {
      files := files + [RecipeFile(recipes[i], value)];
      assert recipes[..i + 1][..i] == recipes[..i];
    }
    assert recipes[..|recipes|] == recipes;
  }

  /** The `forEach` over the recipe directory listing that collects `installedRecipes`. */
  method InstalledRecipes(listing: seq<string>, recipes: seq<string>) returns (installed: seq<string>)
    ensures installed == Installed(listing, recipes)
  {
    installed := [];
    for i := 0 to |listing|
      invariant installed == Installed(listing[..i], recipes)
    {
      var fileName := listing[i];
      for j := 0 to |recipes|
        invariant installed == Installed(listing[..i], recipes) + Matches(fileName, recipes[..j])
      {
        if StartsWith(fileName, recipes[j]) {
          installed := installed + [fileName];
        }
        assert recipes[..j + 1][..j] == recipes[..j];
      }
      assert recipes[..|recipes|] == recipes;
      assert listing[..i + 1][..i] == listing[..i];
    }
    assert listing[..|listing|] == listing;
  }

  /** The `forEach` over the advancement directory listing that collects `installedAdvancements`. */
  method InstalledAdvancements(listing: seq<string>, ruleName: string) returns (names: seq<string>)
    ensures names == StaleAdvancements(listing, ruleName)
  {
    names := [];
    for i := 0 to |listing|
      invariant names == StaleAdvancements(listing[..i], ruleName)
    {
      var fileName := StripJson(listing[i]);
      if StartsWith(fileName, ruleName) {
        names := names + [fileName];
      }
      assert listing[..i + 1][..i] == listing[..i];
    }
    assert listing[..|listing|] == listing;
  }

  // ---------------------------------------------------------------------------
  // The datapack

  /** The setting's value, by the setting's type. */
  datatype RuleValue = StringValue(s: string) | IntValue(n: int) | BoolValue(b: bool) | OtherValue

  /**
   * The files of the rule's recipe directory (`<namespace>/recipes`) and, for each
   * file of `rug/advancements`, its `rewards.recipes` list.
   */
  datatype Pack = Pack(recipes: set<string>, advancements: map<string, seq<string>>)

  /** `writeAdvancement`: the template copied to `<ruleName>.json`, one reward appended per recipe. */
  function AfterWriteAdvancement(pack: Pack, ruleName: string, recipes: seq<string>, template: seq<string>): Pack
  {
    pack.(advancements := pack.advancements[ruleName + JSON := template + Rewards(recipes)])
  }

  /** `removeAdvancement`: `<ruleName>.json` deleted if present. */
  function AfterRemoveAdvancement(pack: Pack, ruleName: string): Pack
  {
    pack.(advancements := pack.advancements - {ruleName + JSON})
  }

  /** `copyRecipes`: every recipe file copied in, and in `rug` the rule's advancement written. */
  function AfterCopy(pack: Pack, recipes: seq<string>, namespace: string, ruleName: string, template: seq<string>): Pack
  {
    var p := pack.(recipes := pack.recipes + set r | r in recipes);
    if namespace == "rug" then AfterWriteAdvancement(p, ruleName, recipes, template) else p
  }

  /** `deleteRecipes`: every recipe file deleted, and on request in `rug` the rule's advancement. */
  function AfterDelete(pack: Pack, recipes: seq<string>, namespace: string, ruleName: string, removeAdvancement: bool): Pack
  {
    var p := pack.(recipes := pack.recipes - set r | r in recipes);
    if removeAdvancement && namespace == "rug" then AfterRemoveAdvancement(p, ruleName) else p
  }

  /** The advancement files a string-valued update deletes: `name + ".json"` for each stale name. */
  function StaleAdvancementFiles(files: set<string>, ruleName: string): set<string>
  {
    set f | f in files && StartsWith(StripJson(f), ruleName) :: StripJson(f) + JSON
  }

  /** `updateCraftingRule`, on the datapack; `ruleName` is already in lower underscore case. */
  function AfterUpdate(pack: Pack, rule: RuleValue, recipes: seq<string>, namespace: string, ruleName: string, template: seq<string>): Pack
  {
    match rule
    case StringValue(value) =>
      var cleared := pack.(recipes := pack.recipes - set f | f in pack.recipes && IsRecipeOf(f, recipes));
      var cleaned :=
        if namespace == "rug"
        then cleared.(advancements := cleared.advancements - StaleAdvancementFiles(pack.advancements.Keys, ruleName))
        else cleared;
      if value == "off" then cleaned
      else AfterCopy(cleaned, RecipeFiles(recipes, value), namespace, ruleName + "_" + value, template)
    case IntValue(n) =>
      if n > 0 then AfterCopy(pack, recipes, namespace, ruleName, template)
      else AfterDelete(pack, recipes, namespace, ruleName, true)
    case BoolValue(b) =>
      if b then AfterCopy(pack, recipes, namespace, ruleName, template)
      else AfterDelete(pack, recipes, namespace, ruleName, true)
    case OtherValue =>
      AfterDelete(pack, recipes, namespace, ruleName, true)
  }

  // ---------------------------------------------------------------------------
  // The file-writing methods, on the datapack value

  /** `writeAdvancement`: the reward list is the template's with one entry appended per recipe. */
  method WriteAdvancement(pack: Pack, ruleName: string, recipes: seq<string>, template: seq<string>) returns (p: Pack)
    ensures p == AfterWriteAdvancement(pack, ruleName, recipes, template)
  {
    var recipeRewards := template;
    for i := 0 to |recipes|
      invariant recipeRewards == template + Rewards(recipes[..i])
    {
      recipeRewards := recipeRewards + ["rug:" + StripJson(recipes[i])];
    }
    assert recipes[..|recipes|] == recipes;
    p := pack.(advancements := pack.advancements[ruleName + JSON := recipeRewards]);
  }

  /** `copyRecipes`. */
  method CopyRecipes(pack: Pack, recipes: seq<string>, namespace: string, ruleName: string, template: seq<string>)
    returns (p: Pack)
    ensures p == AfterCopy(pack, recipes, namespace, ruleName, template)
  {
    p := pack;
    for i := 0 to |recipes|
      invariant p == pack.(recipes := pack.recipes + set k | 0 <= k < i :: recipes[k])
    {
      p := p.(recipes := p.recipes + {recipes[i]});
    }
    assert (set k | 0 <= k < |recipes| :: recipes[k]) == set r | r in recipes;
    if namespace == "rug" {
      p := WriteAdvancement(p, ruleName, recipes, template);
    }
  }

  /** `deleteRecipes`. */
  method DeleteRecipes(pack: Pack, recipes: seq<string>, namespace: string, ruleName: string, removeAdvancement: bool)
    returns (p: Pack)
    ensures p == AfterDelete(pack, recipes, namespace, ruleName, removeAdvancement)
  {
    p := pack;
    for i := 0 to |recipes|
      invariant p == pack.(recipes := pack.recipes - set k | 0 <= k < i :: recipes[k])
    {
      p := p.(recipes := p.recipes - {recipes[i]});
    }
    assert (set k | 0 <= k < |recipes| :: recipes[k]) == set r | r in recipes;
    if removeAdvancement && namespace == "rug" {
      p := AfterRemoveAdvancement(p, ruleName);
    }
  }

  /**
   * `updateCraftingRule`. `recipeListing` and `advancementListing` are what
   * `Files.list` yields for the two directories, in whatever order.
   */
  method UpdateCraftingRule(
    pack: Pack, rule: RuleValue, recipes: seq<string>, namespace: string, ruleName: string,
    template: seq<string>, recipeListing: seq<string>, advancementListing: seq<string>
  ) returns (p: Pack)
    requires forall f :: f in recipeListing <==> f in pack.recipes
    requires forall f :: f in advancementListing <==> f in pack.advancements
    ensures p == AfterUpdate(pack, rule, recipes, namespace, ruleName, template)
  {
    match rule
    case StringValue(value) =>
      var installedRecipes := InstalledRecipes(recipeListing, recipes);
      InstalledMembers(recipeListing, recipes);
      assert (set f | f in installedRecipes) == set f | f in pack.recipes && IsRecipeOf(f, recipes);
      p := DeleteRecipes(pack, installedRecipes, namespace, ruleName, false);

      if namespace == "rug" {
        var installedAdvancements := InstalledAdvancements(advancementListing, ruleName);
        StaleAdvancementsMembers(advancementListing, ruleName);
        ghost var before := p;
        for i := 0 to |installedAdvancements|
          invariant p == before.(advancements := before.advancements - set k | 0 <= k < i :: installedAdvancements[k] + JSON)
        {
          p := AfterRemoveAdvancement(p, installedAdvancements[i]);
        }
        ghost var removed := set k | 0 <= k < |installedAdvancements| :: installedAdvancements[k] + JSON;
        forall x | x in StaleAdvancementFiles(pack.advancements.Keys, ruleName)
          ensures x in removed
        {
          var f :| f in pack.advancements && StartsWith(StripJson(f), ruleName) && x == StripJson(f) + JSON;
          assert f in advancementListing;
          var k :| 0 <= k < |installedAdvancements| && installedAdvancements[k] == StripJson(f);
        }
        forall x | x in removed
          ensures x in StaleAdvancementFiles(pack.advancements.Keys, ruleName)
        {
          var k :| 0 <= k < |installedAdvancements| && x == installedAdvancements[k] + JSON;
          assert installedAdvancements[k] in installedAdvancements;
          var f :| f in advancementListing && StripJson(f) == installedAdvancements[k];
          assert f in pack.advancements.Keys;
        }
        assert removed == StaleAdvancementFiles(pack.advancements.Keys, ruleName);
      }

      if value != "off" {
        var tempRecipes := RecipeFileNames(recipes, value);
        p := CopyRecipes(p, tempRecipes, namespace, ruleName + "_" + value, template);
      }
    case IntValue(n) =>
      if n > 0 {
        p := CopyRecipes(pack, recipes, namespace, ruleName, template);
      } else {
        p := DeleteRecipes(pack, recipes, namespace, ruleName, true);
      }
    case BoolValue(b) =>
      if b {
        p := CopyRecipes(pack, recipes, namespace, ruleName, template);
      } else {
        p := DeleteRecipes(pack, recipes, namespace, ruleName, true);
      }
    case OtherValue =>
      p := DeleteRecipes(pack, recipes, namespace, ruleName, true);
  }

  // ---------------------------------------------------------------------------
  // What an update leaves behind

  /**
   * After a string-valued update, a file matching one of the rule's recipe names
   * is present exactly when it is one of the current value's files (none for
   * `off`); every other file is left as it was.
   */
  lemma StringRuleRecipes(pack: Pack, value: string, recipes: seq<string>, namespace: string, ruleName: string, template: seq<string>)
    ensures forall f ::
      f in AfterUpdate(pack, StringValue(value), recipes, namespace, ruleName, template).recipes <==>
        if IsRecipeOf(f, recipes) then value != "off" && f in RecipeFiles(recipes, value)
        else f in pack.recipes
  {
    RecipeFilesAreRecipes(recipes, value);
  }

  /**
   * After a string-valued update in `rug` to a value other than `off`, the
   * advancement `<ruleName>_<value>.json` rewards the template's recipes and then
   * `rug:<recipe>_<value>` for each recipe, in order.
   */
  lemma StringRuleAdvancement(pack: Pack, value: string, recipes: seq<string>, ruleName: string, template: seq<string>)
    requires value != "off"
    requires forall r :: r in recipes ==> !ContainsJson(r + "_" + value)
    ensures var p := AfterUpdate(pack, StringValue(value), recipes, "rug", ruleName, template);
      && ruleName + "_" + value + JSON in p.advancements
      && p.advancements[ruleName + "_" + value + JSON] ==
         template + seq(|recipes|, i requires 0 <= i < |recipes| => "rug:" + recipes[i] + "_" + value)
  {
    var files := RecipeFiles(recipes, value);
    forall i | 0 <= i < |recipes|
      ensures Rewards(files)[i] == "rug:" + recipes[i] + "_" + value
    {
      RecipeFileReward(recipes[i], value);
    }
    assert Rewards(files) == seq(|recipes|, i requires 0 <= i < |recipes| => "rug:" + recipes[i] + "_" + value);
  }

  /** Applying the same string value twice leaves the recipe files as applying it once. */
  lemma StringRuleIdempotent(pack: Pack, value: string, recipes: seq<string>, namespace: string, ruleName: string, template: seq<string>)
    ensures var once := AfterUpdate(pack, StringValue(value), recipes, namespace, ruleName, template);
      AfterUpdate(once, StringValue(value), recipes, namespace, ruleName, template).recipes == once.recipes
  {
    var once := AfterUpdate(pack, StringValue(value), recipes, namespace, ruleName, template);
    StringRuleRecipes(pack, value, recipes, namespace, ruleName, template);
    StringRuleRecipes(once, value, recipes, namespace, ruleName, template);
  }

  /** Switching a string rule to `off` removes whatever any earlier value installed. */
  lemma StringRuleOffUndoes(pack: Pack, value: string, recipes: seq<string>, namespace: string, ruleName: string, template: seq<string>)
    ensures var on := AfterUpdate(pack, StringValue(value), recipes, namespace, ruleName, template);
      AfterUpdate(on, StringValue("off"), recipes, namespace, ruleName, template).recipes ==
      AfterUpdate(pack, StringValue("off"), recipes, namespace, ruleName, template).recipes
  {
    var on := AfterUpdate(pack, StringValue(value), recipes, namespace, ruleName, template);
    StringRuleRecipes(pack, value, recipes, namespace, ruleName, template);
    StringRuleRecipes(on, "off", recipes, namespace, ruleName, template);
    StringRuleRecipes(pack, "off", recipes, namespace, ruleName, template);
  }

  /**
   * Switching a boolean rule on and then off again deletes its recipe files and,
   * in `rug`, its advancement; everything else is as before.
   */
  lemma BoolRuleOffUndoesOn(pack: Pack, recipes: seq<string>, namespace: string, ruleName: string, template: seq<string>)
    ensures var on := AfterUpdate(pack, BoolValue(true), recipes, namespace, ruleName, template);
      var off := AfterUpdate(on, BoolValue(false), recipes, namespace, ruleName, template);
      && off.recipes == pack.recipes - set r | r in recipes
      && off.advancements == if namespace == "rug" then pack.advancements - {ruleName + JSON} else pack.advancements
  {
  }
}
