/** The cooking MCP server's three query tools over its fixed recipe
    catalogue: list the cuisines, fetch one cuisine, search by ingredient.
    A Python dict is its entries in insertion order; the catalogue's keys
    are distinct, as a dict's are. */
module RecipeCatalog {
  import opened Text

  datatype Recipe = Recipe(name: string, ingredients: seq<string>, difficulty: string, time: string,
                           steps: seq<string>)

  /** A cuisine's entry: its display title and its recipes. */
  datatype Cuisine = Cuisine(title: string, recipes: seq<Recipe>)

  /** The catalogue: cuisine id and cuisine, in dict order. */
  type Catalog = seq<(string, Cuisine)>

  predicate DistinctKeys(catalog: Catalog)
  {
    forall i, j :: 0 <= i < j < |catalog| ==> catalog[i].0 != catalog[j].0
  }

  const RECIPE_CATALOG: Catalog := [
    ("sichuan", Cuisine("川菜", [
      Recipe("麻婆豆腐", ["嫩豆腐", "牛肉末", "豆瓣酱", "花椒", "蒜苗", "生抽", "料酒"], "简单", "20分钟",
             ["豆腐切块焯水", "炒牛肉末至变色", "下豆瓣酱炒香", "加豆腐轻炒", "撒花椒粉和蒜苗"]),
      Recipe("宫保鸡丁", ["鸡胸肉", "花生米", "干辣椒", "花椒", "蒜", "姜", "生抽", "老抽", "糖", "醋"], "中等", "25分钟",
             ["鸡肉切丁腌制", "花生米炸至金黄", "爆炒鸡丁", "下调料炒匀", "最后加花生米"])])),
    ("cantonese", Cuisine("粤菜", [
      Recipe("白切鸡", ["土鸡", "姜", "葱", "盐", "料酒", "生抽", "香油"], "简单", "45分钟",
             ["整鸡洗净", "冷水下锅煮开", "转小火煮20分钟", "捞起过冰水", "配姜葱蘸料"])])),
    ("jiangsu", Cuisine("淮扬菜", [
      Recipe("红烧狮子头", ["猪肉馅", "马蹄", "鸡蛋", "淀粉", "生抽", "老抽", "糖", "料酒", "青菜"], "中等", "40分钟",
             ["肉馅调味搅拌", "做成大肉丸", "油炸定型", "红烧入味", "配青菜装盘"])]))
  ]

  lemma CatalogKeysDistinct()
    ensures DistinctKeys(RECIPE_CATALOG) && |RECIPE_CATALOG| == 3
  {
  }

  // ----- list_cuisines -----

  /** What list_cuisines reports of one cuisine. */
  datatype CuisineSummary = CuisineSummary(title: string, recipeCount: nat)

  /** list_cuisines: one summary per catalogue key, in catalogue order,
      carrying the cuisine's title and the number of its recipes. (With
      distinct keys each dict assignment adds a new entry at the end.) */
  method ListCuisines(catalog: Catalog) returns (cuisines: seq<(string, CuisineSummary)>)
    requires DistinctKeys(catalog)
    ensures |cuisines| == |catalog|
    ensures forall i :: 0 <= i < |catalog| ==>
      cuisines[i] == (catalog[i].0, CuisineSummary(catalog[i].1.title, |catalog[i].1.recipes|))
  {
    cuisines := [];
    var i := 0;
    while i < |catalog|
      invariant 0 <= i <= |catalog|
      invariant |cuisines| == i
      invariant forall k :: 0 <= k < i ==>
        cuisines[k] == (catalog[k].0, CuisineSummary(catalog[k].1.title, |catalog[k].1.recipes|))
    {
      var (id, data) := catalog[i];
      cuisines := cuisines + [(id, CuisineSummary(data.title, |data.recipes|))];
      i := i + 1;
    }
  }

  // ----- get_recipes_by_cuisine -----

  /** The cuisine stored under a key, if any. */
  datatype Lookup = Found(cuisine: Cuisine) | Missing

  function Find(catalog: Catalog, key: string): (r: Lookup)
    ensures r.Found? <==> exists i :: 0 <= i < |catalog| && catalog[i].0 == key
    ensures r.Found? ==> exists i :: 0 <= i < |catalog| && catalog[i] == (key, r.cuisine)
  {
    if catalog == [] then Missing
    else if catalog[0].0 == key then Found(catalog[0].1)
    else
      var r := Find(catalog[1..], key);
      assert r.Found? ==> exists i :: 0 <= i < |catalog[1..]| && catalog[1..][i] == (key, r.cuisine);
      r
  }

  function Keys(catalog: Catalog): (keys: seq<string>)
    ensures |keys| == |catalog| && forall i :: 0 <= i < |catalog| ==> keys[i] == catalog[i].0
  {
    if catalog == [] then [] else [catalog[0].0] + Keys(catalog[1..])
  }

  /** The tool's answer: the cuisine's entry, or an error naming the
      requested cuisine as given together with every catalogue key. */
  datatype CuisineResult = CuisineEntry(cuisine: Cuisine) | NotFound(error: string, availableCuisines: seq<string>)

  /** get_recipes_by_cuisine: the lookup uses the lower-cased name. */
  function GetRecipesByCuisine(catalog: Catalog, cuisine: string): (r: CuisineResult)
    ensures r.CuisineEntry? <==> exists i :: 0 <= i < |catalog| && catalog[i].0 == ToLower(cuisine)
    ensures r.CuisineEntry? ==> exists i :: 0 <= i < |catalog| && catalog[i] == (ToLower(cuisine), r.cuisine)
    ensures r.NotFound? ==> r.availableCuisines == Keys(catalog)
  {
    match Find(catalog, ToLower(cuisine))
    case Found(c) => CuisineEntry(c)
    case Missing => NotFound("Cuisine '" + cuisine + "' not found", Keys(catalog))
  }

  /** With distinct keys the entry found is the one under the lower-cased
      name, and the name's case does not matter. */
  lemma GetRecipesIgnoresCase(catalog: Catalog, cuisine: string, i: nat)
    requires DistinctKeys(catalog)
    requires i < |catalog| && catalog[i].0 == ToLower(cuisine)
    ensures GetRecipesByCuisine(catalog, cuisine) == CuisineEntry(catalog[i].1)
    ensures GetRecipesByCuisine(catalog, ToLower(cuisine)) == CuisineEntry(catalog[i].1)
  {
    ToLowerIdempotent(cuisine);
  }

  // ----- search_recipes_by_ingredient -----

  /** One search hit: the recipe's name, its cuisine's title, its
      difficulty and time. */
  datatype Hit = Hit(name: string, cuisine: string, difficulty: string, time: string)

  /** Some ingredient of the recipe contains `ingredient` as a substring. */
  predicate Uses(recipe: Recipe, ingredient: string)
  {
    exists k :: 0 <= k < |recipe.ingredients| && Contains(recipe.ingredients[k], ingredient)
  }

  function HitOf(c: Cuisine, recipe: Recipe): Hit
  {
    Hit(recipe.name, c.title, recipe.difficulty, recipe.time)
  }

  /** The hits among the first recipes of one cuisine, in recipe order. */
  function RecipeHits(c: Cuisine, recipes: seq<Recipe>, ingredient: string): seq<Hit>
  {
    if recipes == [] then []
    else
      var last := recipes[|recipes| - 1];
      RecipeHits(c, recipes[..|recipes| - 1], ingredient) + (if Uses(last, ingredient) then [HitOf(c, last)] else [])
  }

  /** The hits of the whole search: cuisine by cuisine in catalogue order. */
  function Hits(catalog: Catalog, ingredient: string): seq<Hit>
  {
    if catalog == [] then []
    else
      var last := catalog[|catalog| - 1].1;
      Hits(catalog[..|catalog| - 1], ingredient) + RecipeHits(last, last.recipes, ingredient)
  }

  /** search_recipes_by_ingredient: a nested loop over cuisines and recipes
      collecting the hits. */
  method SearchRecipesByIngredient(catalog: Catalog, ingredient: string) returns (matching: seq<Hit>)
    ensures matching == Hits(catalog, ingredient)
  {
    matching := [];
    var i := 0;
    while i < |catalog|
      invariant 0 <= i <= |catalog|
      invariant matching == Hits(catalog[..i], ingredient)
    {
      var data := catalog[i].1;
      var j := 0;
      ghost var before := matching;
      while j < |data.recipes|
        invariant 0 <= j <= |data.recipes|
        invariant matching == before + RecipeHits(data, data.recipes[..j], ingredient)
      {
        var recipe := data.recipes[j];
        if Uses(recipe, ingredient) {
          matching := matching + [HitOf(data, recipe)];
        }
        assert data.recipes[..j + 1][..j] == data.recipes[..j];
        j := j + 1;
      }
      assert data.recipes[..j] == data.recipes;
      assert catalog[..i + 1][..i] == catalog[..i];
      i := i + 1;
    }
    assert catalog[..i] == catalog;
  }

  /** A search over two catalogues in a row lists the first one's hits
      first: hits keep catalogue order. */
  lemma {:induction false} HitsAppend(a: Catalog, b: Catalog, ingredient: string)
    ensures Hits(a + b, ingredient) == Hits(a, ingredient) + Hits(b, ingredient)
    decreases |b|
  {
    if b == [] {
      assert a + b == a;
    } else {
      var init, last := b[..|b| - 1], b[|b| - 1].1;
      var ab := a + b;
      assert ab[..|ab| - 1] == a + init && ab[|ab| - 1].1 == last;
      var lastHits := RecipeHits(last, last.recipes, ingredient);
      calc {
        Hits(ab, ingredient);
        Hits(a + init, ingredient) + lastHits;
        { HitsAppend(a, init, ingredient); }
        (Hits(a, ingredient) + Hits(init, ingredient)) + lastHits;
        Hits(a, ingredient) + (Hits(init, ingredient) + lastHits);
      }
    }
  }

  /** `h` is the hit of one of `recipes` that uses the ingredient. */
  predicate HitAmong(c: Cuisine, recipes: seq<Recipe>, ingredient: string, h: Hit)
  {
    exists j :: 0 <= j < |recipes| && Uses(recipes[j], ingredient) && h == HitOf(c, recipes[j])
  }

  /** A recipe is hit exactly when it uses the ingredient. */
  lemma {:induction false} RecipeHitsMember(c: Cuisine, recipes: seq<Recipe>, ingredient: string, h: Hit)
    ensures h in RecipeHits(c, recipes, ingredient) <==> HitAmong(c, recipes, ingredient, h)
    decreases |recipes|
  {
    if recipes != [] {
      var init := recipes[..|recipes| - 1];
      RecipeHitsMember(c, init, ingredient, h);
      if HitAmong(c, recipes, ingredient, h) {
        var j :| 0 <= j < |recipes| && Uses(recipes[j], ingredient) && h == HitOf(c, recipes[j]);
        if j < |init| {
          assert init[j] == recipes[j];
        }
      }
      if HitAmong(c, init, ingredient, h) {
        var j :| 0 <= j < |init| && Uses(init[j], ingredient) && h == HitOf(c, init[j]);
        assert recipes[j] == init[j];
      }
    }
  }

  /** The search reports exactly the recipes with an ingredient containing
      the query, each with its own name, difficulty and time and its
      cuisine's title. */
  lemma {:induction false} HitsMember(catalog: Catalog, ingredient: string, h: Hit)
    ensures h in Hits(catalog, ingredient) <==>
      exists i :: 0 <= i < |catalog| && HitAmong(catalog[i].1, catalog[i].1.recipes, ingredient, h)
    decreases |catalog|
  {
    if catalog != [] {
      var init := catalog[..|catalog| - 1];
      var last := catalog[|catalog| - 1].1;
      HitsMember(init, ingredient, h);
      RecipeHitsMember(last, last.recipes, ingredient, h);
      assert forall i :: 0 <= i < |init| ==> init[i] == catalog[i];
    }
  }

  /** No recipe is reported more often than the catalogue holds it: the
      search yields at most one hit per recipe. */
  lemma {:induction false} HitsBounded(catalog: Catalog, ingredient: string)
    ensures |Hits(catalog, ingredient)| <= RecipeCount(catalog)
    decreases |catalog|
  {
    if catalog != [] {
      var last := catalog[|catalog| - 1].1;
      HitsBounded(catalog[..|catalog| - 1], ingredient);
      RecipeHitsBounded(last, last.recipes, ingredient);
    }
  }

  lemma {:induction false} RecipeHitsBounded(c: Cuisine, recipes: seq<Recipe>, ingredient: string)
    ensures |RecipeHits(c, recipes, ingredient)| <= |recipes|
    decreases |recipes|
  {
    if recipes != [] {
      RecipeHitsBounded(c, recipes[..|recipes| - 1], ingredient);
    }
  }

  /** The number of recipes in the catalogue. */
  function RecipeCount(catalog: Catalog): nat
  {
    if catalog == [] then 0 else RecipeCount(catalog[..|catalog| - 1]) + |catalog[|catalog| - 1].1.recipes|
  }

  /** The empty query is a substring of every ingredient, so it finds
      every recipe that has at least one ingredient. */
  lemma {:induction false} EmptyQueryFindsAll(catalog: Catalog)
    requires forall i, j :: 0 <= i < |catalog| && 0 <= j < |catalog[i].1.recipes| ==>
      catalog[i].1.recipes[j].ingredients != []
    ensures |Hits(catalog, "")| == RecipeCount(catalog)
    decreases |catalog|
  {
    if catalog != [] {
      var init := catalog[..|catalog| - 1];
      var last := catalog[|catalog| - 1].1;
      assert forall i :: 0 <= i < |init| ==> init[i] == catalog[i];
      EmptyQueryFindsAll(init);
      forall j | 0 <= j < |last.recipes| ensures Uses(last.recipes[j], "") {
        ContainsAt(last.recipes[j].ingredients[0], "", 0);
      }
      AllUsedHits(last, last.recipes, "");
    }
  }

  lemma {:induction false} AllUsedHits(c: Cuisine, recipes: seq<Recipe>, ingredient: string)
    requires forall j :: 0 <= j < |recipes| ==> Uses(recipes[j], ingredient)
    ensures |RecipeHits(c, recipes, ingredient)| == |recipes|
    decreases |recipes|
  {
    if recipes != [] {
      AllUsedHits(c, recipes[..|recipes| - 1], ingredient);
    }
  }
}
