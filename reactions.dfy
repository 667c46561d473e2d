/**
 * Day 14: the nanofactory. A recipe turns fixed amounts of ingredients into
 * a batch of one output chemical; the recipe book holds one recipe per output
 * name. The inventory crafts chemicals on demand, keeping leftovers between
 * requests and counting the ORE spent, and `craft_until_n` searches for how
 * much FUEL a budget of ORE buys.
 *
 * Amounts are `i64` in the source; the model uses unbounded integers and
 * Rust's truncating division. A panic (`unwrap` on a missing recipe or map
 * entry, an out-of-range index, a division by zero) is a `false` or `None`
 * result; the program would stop there, so nothing is promised about the
 * inventory afterwards.
 */
module Reactions {
  import opened Outcomes
  import opened Text

  /** An amount of a named chemical, as in "7 ORE". */
  datatype Ingredient = Ingredient(amount: int, name: string)

  /** The ingredients of one batch and the batch it yields. */
  datatype Recipe = Recipe(ingredients: seq<Ingredient>, output: Ingredient)

  /** The range of Rust's `i64`. */
  const I64Min: int := -0x8000_0000_0000_0000
  const I64Max: int := 0x7fff_ffff_ffff_ffff

  // ---------------------------------------------------------------------
  // Parsing
  // ---------------------------------------------------------------------

  /**
   * `Ingredient::new`: the trimmed text split at single spaces; the first
   * piece, trimmed, is parsed as an `i64` amount and the second, trimmed, is
   * the name. A missing piece or an amount that does not parse panics.
   */
  function ParseIngredient(s: string): (r: Option<Ingredient>)
    ensures r.Some? ==> I64Min <= r.value.amount <= I64Max
  {
    var description := SplitTerminatorAny(Trim(s), {' '});
    if |description| < 2 then None
    else
      match ParseInt(Trim(description[0]), I64Min, I64Max)
      case None => None
      case Some(amount) => Some(Ingredient(amount, Trim(description[1])))
  }

  /** The pieces `Ingredient::new` cuts "<text> <name>" into, for two words without whitespace: the two words, already trimmed. */
  lemma IngredientPieces(text: string, name: string)
    requires text != [] && forall i | 0 <= i < |text| :: !IsSpace(text[i])
    requires name != [] && forall i | 0 <= i < |name| :: !IsSpace(name[i])
    ensures var s := text + " " + name;
      Trim(s) == s && SplitTerminatorAny(s, {' '}) == [text, name] && Trim(text) == text && Trim(name) == name
  {
    var s := text + " " + name;
    assert s[0] == text[0] && s[|s| - 1] == name[|name| - 1];
    TrimKeeps(s);
    TrimKeeps(text);
    TrimKeeps(name);
    assert s == text + [' '] + name;
    SplitAnyFirst(text, ' ', name, {' '});
    SplitAnyFree(name, {' '});
  }

  /** Writing an amount and a name as "<amount> <name>" and reading it back gives the ingredient. */
  lemma IngredientRoundTrip(amount: int, name: string)
    requires I64Min <= amount <= I64Max && name != []
    requires forall i | 0 <= i < |name| :: !IsSpace(name[i])
    ensures ParseIngredient(Show(amount) + " " + name) == Some(Ingredient(amount, name))
  {
    ShowUnspaced(amount);
    IngredientPieces(Show(amount), name);
    ParseShow(amount, I64Min, I64Max);
  }

  /** Every piece parsed with `parse`, in order, or nothing as soon as one fails. */
  function ParseEach<T>(pieces: seq<string>, parse: string -> Option<T>): (r: Option<seq<T>>)
  {
    if pieces == [] then Some([])
    else
      match ParseEach(pieces[..|pieces| - 1], parse)
      case None => None
      case Some(front) =>
        match parse(pieces[|pieces| - 1])
        case None => None
        case Some(last) => Some(front + [last])
  }

  /** A list parses exactly when every piece does, into the pieces' values in order. */
  lemma {:induction false} ParseEachMeaning<T>(pieces: seq<string>, parse: string -> Option<T>)
    ensures ParseEach(pieces, parse).Some? <==> forall i | 0 <= i < |pieces| :: parse(pieces[i]).Some?
    ensures ParseEach(pieces, parse).Some? ==> var values := ParseEach(pieces, parse).value;
      |values| == |pieces| && forall i | 0 <= i < |pieces| :: parse(pieces[i]) == Some(values[i])
  {
    if pieces != [] {
      var front := pieces[..|pieces| - 1];
      ParseEachMeaning(front, parse);
      assert forall i | 0 <= i < |front| :: front[i] == pieces[i];
      if ParseEach(front, parse).Some? && parse(pieces[|pieces| - 1]).Some? {
        var values := ParseEach(pieces, parse).value;
        assert values == ParseEach(front, parse).value + [parse(pieces[|pieces| - 1]).value];
        assert forall i | 0 <= i < |front| :: values[i] == ParseEach(front, parse).value[i];
      }
    }
  }

  /**
   * `Recipe::new`: the line split at "=>"; the first part split at ',' gives
   * the ingredients and the second part is the output.
   */
  function ParseRecipe(line: string): (r: Option<Recipe>)
  {
    var tokens := SplitTerminator(line, "=>");
    if |tokens| < 2 then None
    else
      match ParseEach(SplitTerminatorAny(tokens[0], {','}), ParseIngredient)
      case None => None
      case Some(ingredients) =>
        match ParseIngredient(tokens[1])
        case None => None
        case Some(output) => Some(Recipe(ingredients, output))
  }

  /** The map after inserting `recipes` in order, each under its output name. */
  function Filed(recipes: seq<Recipe>): map<string, Recipe>
  {
    if recipes == [] then map[]
    else Filed(recipes[..|recipes| - 1])[recipes[|recipes| - 1].output.name := recipes[|recipes| - 1]]
  }

  /** Appending one recipe files it under its output name, over the earlier ones. */
  lemma FiledSnoc(recipes: seq<Recipe>, last: Recipe)
    ensures Filed(recipes + [last]) == Filed(recipes)[last.output.name := last]
  {
    assert (recipes + [last])[..|recipes|] == recipes;
  }

  /** Each recipe is filed under its own output name. */
  lemma {:induction false} FiledUnderOwnName(recipes: seq<Recipe>)
    ensures forall name | name in Filed(recipes) :: Filed(recipes)[name].output.name == name
  {
    if recipes != [] {
      FiledUnderOwnName(recipes[..|recipes| - 1]);
    }
  }

  /** Every recipe's output name is filed. */
  lemma {:induction false} FiledHasEveryName(recipes: seq<Recipe>)
    ensures forall j | 0 <= j < |recipes| :: recipes[j].output.name in Filed(recipes)
  {
    if recipes != [] {
      var front := recipes[..|recipes| - 1];
      FiledHasEveryName(front);
      assert forall j | 0 <= j < |front| :: recipes[j] == front[j];
    }
  }

  /** `j` is the last recipe producing `name`. */
  predicate LastFor(recipes: seq<Recipe>, name: string, j: int)
  {
    0 <= j < |recipes| && recipes[j].output.name == name
    && forall j' | j < j' < |recipes| :: recipes[j'].output.name != name
  }

  /** A name produced by several recipes keeps the last of them. */
  lemma {:induction false} FiledKeepsLast(recipes: seq<Recipe>, name: string)
    requires name in Filed(recipes)
    ensures exists j :: LastFor(recipes, name, j) && recipes[j] == Filed(recipes)[name]
  {
    var front := recipes[..|recipes| - 1];
    var last := recipes[|recipes| - 1];
    if name == last.output.name {
      assert LastFor(recipes, name, |recipes| - 1);
    } else {
      FiledKeepsLast(front, name);
      var j :| LastFor(front, name, j) && front[j] == Filed(front)[name];
      assert recipes[j] == front[j];
      assert LastFor(recipes, name, j);
    }
  }

  /** `RecipeBook::new` on the lines of a text: every line parsed, then filed. */
  function BookOf(lines: seq<string>): Option<map<string, Recipe>>
  {
    match ParseEach(lines, ParseRecipe)
    case None => None
    case Some(recipes) => Some(Filed(recipes))
  }

  /**
   * `RecipeBook::new`: every line of the text parsed as a recipe and inserted
   * into the map under its output name; a line that does not parse panics.
   */
  method NewRecipeBook(text: string) returns (r: Option<map<string, Recipe>>)
    ensures r == BookOf(SplitTerminatorAny(text, {'\n'}))
  {
    var lines := SplitTerminatorAny(text, {'\n'});
    ghost var parsed: seq<Recipe> := [];
    var recipes: map<string, Recipe> := map[];
    var k := 0;
    while k < |lines|
      invariant k <= |lines|
      invariant ParseEach(lines[..k], ParseRecipe) == Some(parsed) && recipes == Filed(parsed)
    {
      var recipe := ParseRecipe(lines[k]);
      ParseEachSnoc(lines, k, ParseRecipe);
      if recipe.None? {
        ParsePrefixNone(lines, k + 1, ParseRecipe);
        return None;
      }
      FiledSnoc(parsed, recipe.value);
      parsed := parsed + [recipe.value];
      recipes := recipes[recipe.value.output.name := recipe.value];
      k := k + 1;
    }
    assert lines[..k] == lines;
    return Some(recipes);
  }

  /** Parsing one more piece extends the values, or fails when that piece fails. */
  lemma ParseEachSnoc<T>(pieces: seq<string>, k: nat, parse: string -> Option<T>)
    requires k < |pieces|
    ensures ParseEach(pieces[..k + 1], parse) ==
      match ParseEach(pieces[..k], parse)
      case None => None
      case Some(front) =>
        match parse(pieces[k])
        case None => None
        case Some(last) => Some(front + [last])
  {
    assert pieces[..k + 1][..k] == pieces[..k];
  }

  /** Once a prefix of the pieces fails to parse, so does every longer prefix. */
  lemma {:induction false} ParsePrefixNone<T>(pieces: seq<string>, k: nat, parse: string -> Option<T>)
    requires k <= |pieces| && ParseEach(pieces[..k], parse).None?
    ensures ParseEach(pieces, parse).None?
    decreases |pieces| - k
  {
    if k < |pieces| {
      assert pieces[..k + 1][..k] == pieces[..k];
      ParsePrefixNone(pieces, k + 1, parse);
    } else {
      assert pieces[..k] == pieces;
    }
  }

  // ---------------------------------------------------------------------
  // Batches
  // ---------------------------------------------------------------------

  /** Rust's `/` on integers: the quotient truncated towards zero. */
  function TruncDiv(a: int, b: int): int
    requires b != 0
  {
    var q := Abs(a) / Abs(b);
    if (a < 0) != (b < 0) then -q else q
  }

  /** Rust's `%` on integers: the remainder takes the sign of the dividend. */
  function TruncRem(a: int, b: int): int
    requires b != 0
  {
    a - b * TruncDiv(a, b)
  }

  /**
   * How many batches of `per` units cover `amount`: `amount / per`, plus one
   * when the division leaves a remainder. A zero batch size divides by zero.
   */
  function Batches(amount: int, per: int): (n: Option<int>)
    ensures n.Some? <==> per != 0
  {
    if per == 0 then None
    else Some(TruncDiv(amount, per) + (if TruncRem(amount, per) != 0 then 1 else 0))
  }

  /**
   * For a non-negative amount and a positive batch size the batch count is
   * the ceiling of the quotient: `n` batches cover the amount and `n - 1` do not.
   */
  lemma BatchesCeiling(amount: int, per: int)
    requires amount >= 0 && per > 0
    ensures var n := Batches(amount, per).value;
      n >= 0 && per * n >= amount && per * (n - 1) < amount
      && (amount > 0 ==> n >= 1)
  {
    var q := amount / per;
    assert TruncDiv(amount, per) == q;
    assert amount == per * q + amount % per;
    if amount % per != 0 {
      assert per * (q + 1) == per * q + per;
    } else {
      assert per * (q - 1) == per * q - per;
    }
  }

  /** The ORE a craft spends: a non-negative batch cost times a non-negative count. */
  lemma SpentNonNegative(cost: int, n: int)
    requires cost >= 0 && n >= 0
    ensures cost * n >= 0
  {
  }

  // ---------------------------------------------------------------------
  // The inventory
  // ---------------------------------------------------------------------

  /**
   * The book's chemicals can be ranked so that every ingredient ranks below
   * the output of its recipe: the recipes have no cycle, which the recursive
   * crafting needs to stop.
   */
  ghost predicate Ranked(book: map<string, Recipe>, rank: map<string, nat>)
  {
    forall out | out in book ::
      out in rank && forall i | 0 <= i < |book[out].ingredients| ::
        book[out].ingredients[i].name in rank && rank[book[out].ingredients[i].name] < rank[out]
  }

  /** Every recipe yields a positive amount and asks for non-negative amounts, as puzzle inputs do. */
  predicate Sane(book: map<string, Recipe>)
  {
    forall out | out in book ::
      book[out].output.amount > 0 && forall i | 0 <= i < |book[out].ingredients| :: book[out].ingredients[i].amount >= 0
  }

  /** No leftover count is negative. */
  predicate NonNegative(stock: map<string, int>)
  {
    forall name | name in stock :: stock[name] >= 0
  }

  /** The height of a chemical in the ranking; chemicals without a recipe sit at 0. */
  function Height(rank: map<string, nat>, name: string): nat
  {
    if name in rank then rank[name] else 0
  }

  /** `name` ranks below `item`, so crafting `item` may use it up. */
  predicate Below(rank: map<string, nat>, name: string, item: string)
  {
    name in rank && item in rank && rank[name] < rank[item]
  }

  /** The leftover amount of `name`, 0 for a chemical not seen yet. */
  function Leftover(stock: map<string, int>, name: string): int
  {
    if name in stock then stock[name] else 0
  }

  /** The part of an inventory that crafting changes: the leftovers and the ORE spent. */
  datatype Store = Store(stock: map<string, int>, ore: int)

  /**
   * `craft_item` on a store: `Batches(amount, out)` batches of the recipe,
   * each charging its first ingredient's amount to the ORE total and adding
   * `out` to the item's leftovers. A missing recipe, a zero batch size or a
   * recipe without ingredients panics.
   */
  function Craft(book: map<string, Recipe>, s: Store, item: string, amount: int): (r: Option<Store>)
    ensures r.Some? <==> item in book && book[item].output.amount != 0 && |book[item].ingredients| > 0
  {
    if item !in book then None
    else
      var recipe := book[item];
      match Batches(amount, recipe.output.amount)
      case None => None
      case Some(n) =>
        if |recipe.ingredients| == 0 then None
        else Some(Store(s.stock[item := Leftover(s.stock, item) + recipe.output.amount * n],
                        s.ore + recipe.ingredients[0].amount * n))
  }

  /**
   * `request_item` on a store: the item gets an entry; if its leftovers fall
   * short of `amount`, a recipe made of ORE alone is crafted for the
   * shortfall, and any other recipe is run `n` times, `n` the ceiling of the
   * shortfall over the batch size, after its ingredients are gathered.
   * A chemical without a recipe that falls short panics.
   */
  ghost function Request(book: map<string, Recipe>, rank: map<string, nat>, s: Store, item: string, amount: int): Option<Store>
    requires Ranked(book, rank)
    decreases Height(rank, item), 1
  {
    var count := Leftover(s.stock, item);
    var entered := Store(s.stock[item := count], s.ore);
    if count >= amount then Some(entered)
    else if item !in book then None
    else
      var recipe := book[item];
      if |recipe.ingredients| == 1 && recipe.ingredients[0].name == "ORE" then
        Craft(book, entered, item, amount - count)
      else
        match Batches(amount - count, recipe.output.amount)
        case None => None
        case Some(n) =>
          match Gather(book, rank, entered, item, n, 0)
          case None => None
          case Some(t) => Some(Store(t.stock[item := Leftover(t.stock, item) + recipe.output.amount * n], t.ore))
  }

  /**
   * The ingredient loop of `request_item` from ingredient `i` on: each
   * ingredient requested for `n` batches, then that much taken out of stock.
   */
  ghost function Gather(book: map<string, Recipe>, rank: map<string, nat>, s: Store, item: string, n: int, i: nat): Option<Store>
    requires Ranked(book, rank) && item in book && i <= |book[item].ingredients|
    decreases Height(rank, item), 0, |book[item].ingredients| - i
  {
    if i == |book[item].ingredients| then Some(s)
    else
      var ingredient := book[item].ingredients[i];
      var need := ingredient.amount * n;
      assert Height(rank, ingredient.name) < Height(rank, item);
      match Request(book, rank, s, ingredient.name, need)
      case None => None
      case Some(t) =>
        Gather(book, rank, Store(t.stock[ingredient.name := Leftover(t.stock, ingredient.name) - need], t.ore), item, n, i + 1)
  }

  /** The ingredient loop at ingredient `i`: one request and one deduction, then the rest of the loop. */
  lemma GatherStep(book: map<string, Recipe>, rank: map<string, nat>, s: Store, item: string, n: int, i: nat, t: Store)
    requires Ranked(book, rank) && item in book && i < |book[item].ingredients|
    requires var ingredient := book[item].ingredients[i];
      Request(book, rank, s, ingredient.name, ingredient.amount * n) == Some(t) && ingredient.name in t.stock
    ensures var ingredient := book[item].ingredients[i];
      Gather(book, rank, s, item, n, i) ==
        Gather(book, rank, Store(t.stock[ingredient.name := t.stock[ingredient.name] - ingredient.amount * n], t.ore), item, n, i + 1)
  {
  }

  /** Crafting gives the item an entry and keeps every other one. */
  lemma {:induction false} RequestKeys(book: map<string, Recipe>, rank: map<string, nat>, s: Store, item: string, amount: int)
    requires Ranked(book, rank)
    ensures var r := Request(book, rank, s, item, amount);
      r.Some? ==> item in r.value.stock && s.stock.Keys <= r.value.stock.Keys
    decreases Height(rank, item), 1
  {
    var count := Leftover(s.stock, item);
    var entered := Store(s.stock[item := count], s.ore);
    if count < amount && item in book {
      var recipe := book[item];
      if !(|recipe.ingredients| == 1 && recipe.ingredients[0].name == "ORE") && Batches(amount - count, recipe.output.amount).Some? {
        GatherKeys(book, rank, entered, item, Batches(amount - count, recipe.output.amount).value, 0);
      }
    }
  }

  /** The ingredient loop keeps every entry. */
  lemma {:induction false} GatherKeys(book: map<string, Recipe>, rank: map<string, nat>, s: Store, item: string, n: int, i: nat)
    requires Ranked(book, rank) && item in book && i <= |book[item].ingredients|
    ensures var r := Gather(book, rank, s, item, n, i);
      r.Some? ==> s.stock.Keys <= r.value.stock.Keys
    decreases Height(rank, item), 0, |book[item].ingredients| - i
  {
    if i < |book[item].ingredients| {
      var ingredient := book[item].ingredients[i];
      var need := ingredient.amount * n;
      assert Height(rank, ingredient.name) < Height(rank, item);
      RequestKeys(book, rank, s, ingredient.name, need);
      var t := Request(book, rank, s, ingredient.name, need);
      if t.Some? {
        GatherKeys(book, rank, Store(t.value.stock[ingredient.name := Leftover(t.value.stock, ingredient.name) - need], t.value.ore), item, n, i + 1);
      }
    }
  }

  /** Crafting `item` changes only the item and chemicals ranked below it. */
  lemma {:induction false} RequestFrame(book: map<string, Recipe>, rank: map<string, nat>, s: Store, item: string, amount: int)
    requires Ranked(book, rank)
    ensures var r := Request(book, rank, s, item, amount);
      r.Some? ==> forall name | name != item && !Below(rank, name, item) :: Leftover(r.value.stock, name) == Leftover(s.stock, name)
    decreases Height(rank, item), 1
  {
    var count := Leftover(s.stock, item);
    var entered := Store(s.stock[item := count], s.ore);
    if count < amount && item in book {
      var recipe := book[item];
      if !(|recipe.ingredients| == 1 && recipe.ingredients[0].name == "ORE") && Batches(amount - count, recipe.output.amount).Some? {
        GatherFrame(book, rank, entered, item, Batches(amount - count, recipe.output.amount).value, 0);
      }
    }
  }

  /** The ingredient loop changes only chemicals ranked below the item; the item's own count stays. */
  lemma {:induction false} GatherFrame(book: map<string, Recipe>, rank: map<string, nat>, s: Store, item: string, n: int, i: nat)
    requires Ranked(book, rank) && item in book && i <= |book[item].ingredients|
    ensures var r := Gather(book, rank, s, item, n, i);
      r.Some? ==> forall name | !Below(rank, name, item) :: Leftover(r.value.stock, name) == Leftover(s.stock, name)
    decreases Height(rank, item), 0, |book[item].ingredients| - i
  {
    if i < |book[item].ingredients| {
      var ingredient := book[item].ingredients[i];
      var need := ingredient.amount * n;
      assert Below(rank, ingredient.name, item);
      RequestFrame(book, rank, s, ingredient.name, need);
      var t := Request(book, rank, s, ingredient.name, need);
      if t.Some? {
        var u := Store(t.value.stock[ingredient.name := Leftover(t.value.stock, ingredient.name) - need], t.value.ore);
        GatherFrame(book, rank, u, item, n, i + 1);
        forall name | !Below(rank, name, item)
          ensures Leftover(u.stock, name) == Leftover(s.stock, name)
        {
          assert name != ingredient.name && !Below(rank, name, ingredient.name);
        }
      }
    }
  }

  /**
   * With a sane book, a request that succeeds leaves at least `amount` of the
   * item, never lowers the ORE total, and keeps leftovers non-negative.
   */
  lemma {:induction false} RequestCovers(book: map<string, Recipe>, rank: map<string, nat>, s: Store, item: string, amount: int)
    requires Ranked(book, rank) && Sane(book)
    ensures var r := Request(book, rank, s, item, amount);
      r.Some? ==>
        Leftover(r.value.stock, item) >= amount && r.value.ore >= s.ore
        && (NonNegative(s.stock) ==> NonNegative(r.value.stock))
    decreases Height(rank, item), 1
  {
    var count := Leftover(s.stock, item);
    var entered := Store(s.stock[item := count], s.ore);
    if count < amount && item in book {
      var recipe := book[item];
      if Batches(amount - count, recipe.output.amount).Some? {
        var n := Batches(amount - count, recipe.output.amount).value;
        BatchesCeiling(amount - count, recipe.output.amount);
        if |recipe.ingredients| == 1 && recipe.ingredients[0].name == "ORE" {
          SpentNonNegative(recipe.ingredients[0].amount, n);
        } else {
          GatherCovers(book, rank, entered, item, n, 0);
          GatherFrame(book, rank, entered, item, n, 0);
        }
      }
    }
  }

  /** With a sane book, the ingredient loop never lowers the ORE total and keeps leftovers non-negative. */
  lemma {:induction false} GatherCovers(book: map<string, Recipe>, rank: map<string, nat>, s: Store, item: string, n: int, i: nat)
    requires Ranked(book, rank) && Sane(book) && item in book && i <= |book[item].ingredients|
    ensures var r := Gather(book, rank, s, item, n, i);
      r.Some? ==> r.value.ore >= s.ore && (NonNegative(s.stock) ==> NonNegative(r.value.stock))
    decreases Height(rank, item), 0, |book[item].ingredients| - i
  {
    if i < |book[item].ingredients| {
      var ingredient := book[item].ingredients[i];
      var need := ingredient.amount * n;
      assert Height(rank, ingredient.name) < Height(rank, item);
      RequestCovers(book, rank, s, ingredient.name, need);
      var t := Request(book, rank, s, ingredient.name, need);
      if t.Some? {
        GatherCovers(book, rank, Store(t.value.stock[ingredient.name := Leftover(t.value.stock, ingredient.name) - need], t.value.ore), item, n, i + 1);
      }
    }
  }

  /**
   * One round of `craft_until_n`: `multiplier` of the item requested, then
   * `multiplier` taken out of the "FUEL" entry, which panics when missing.
   */
  ghost function Round(book: map<string, Recipe>, rank: map<string, nat>, s: Store, item: string, multiplier: int): Option<Store>
    requires Ranked(book, rank)
  {
    match Request(book, rank, s, item, multiplier)
    case None => None
    case Some(t) =>
      if "FUEL" in t.stock then Some(Store(t.stock["FUEL" := t.stock["FUEL"] - multiplier], t.ore))
      else None
  }

  /** The store after the rounds `multipliers`, in order. */
  ghost function Rounds(book: map<string, Recipe>, rank: map<string, nat>, s: Store, item: string, multipliers: seq<int>): Option<Store>
    requires Ranked(book, rank)
  {
    if multipliers == [] then Some(s)
    else
      match Rounds(book, rank, s, item, multipliers[..|multipliers| - 1])
      case None => None
      case Some(t) => Round(book, rank, t, item, multipliers[|multipliers| - 1])
  }

  /** The total of a list of amounts. */
  function Sum(xs: seq<int>): int
  {
    if xs == [] then 0 else Sum(xs[..|xs| - 1]) + xs[|xs| - 1]
  }

  /** A round of FUEL with a sane book keeps leftovers non-negative and never lowers the ORE total. */
  lemma RoundCovers(book: map<string, Recipe>, rank: map<string, nat>, s: Store, multiplier: int)
    requires Ranked(book, rank) && Sane(book)
    ensures var r := Round(book, rank, s, "FUEL", multiplier);
      r.Some? ==> r.value.ore >= s.ore && (NonNegative(s.stock) ==> NonNegative(r.value.stock))
  {
    RequestCovers(book, rank, s, "FUEL", multiplier);
  }

  /** Rounds of FUEL with a sane book keep leftovers non-negative and never lower the ORE total. */
  lemma {:induction false} RoundsCover(book: map<string, Recipe>, rank: map<string, nat>, s: Store, multipliers: seq<int>)
    requires Ranked(book, rank) && Sane(book)
    ensures var r := Rounds(book, rank, s, "FUEL", multipliers);
      r.Some? ==> r.value.ore >= s.ore && (NonNegative(s.stock) ==> NonNegative(r.value.stock))
  {
    if multipliers != [] {
      var front := multipliers[..|multipliers| - 1];
      RoundsCover(book, rank, s, front);
      var t := Rounds(book, rank, s, "FUEL", front);
      if t.Some? {
        RoundCovers(book, rank, t.value, multipliers[|multipliers| - 1]);
      }
    }
  }

  /** One more round continues from the store the earlier rounds left, and adds its multiplier to the total. */
  lemma RoundsSnoc(book: map<string, Recipe>, rank: map<string, nat>, s: Store, item: string, multipliers: seq<int>, m: int)
    requires Ranked(book, rank)
    ensures Rounds(book, rank, s, item, multipliers + [m]) ==
      match Rounds(book, rank, s, item, multipliers)
      case None => None
      case Some(t) => Round(book, rank, t, item, m)
    ensures Sum(multipliers + [m]) == Sum(multipliers) + m
  {
    assert (multipliers + [m])[..|multipliers|] == multipliers;
  }

  /** One more unit of `item` from `s` would spend more than `n` ORE. */
  ghost predicate Overshoots(book: map<string, Recipe>, rank: map<string, nat>, s: Store, item: string, n: int)
    requires Ranked(book, rank)
  {
    var over := Round(book, rank, s, item, 1);
    over.Some? && over.value.ore > n
  }

  /**
   * What `craft_until_n` keeps true from `start` on: the snapshot is the
   * store after the rounds `kept`; the current store is the snapshot, or
   * one more round of `multiplier` on top of it; and when the budget is
   * not spent at the start, the snapshot stays within it, `produced` is the
   * total of the rounds the current store is made of, and once the
   * multiplier is below 1 one more unit overshoots. When the budget is
   * spent at the start, nothing is ever crafted and `produced` only falls.
   */
  ghost predicate Searching(book: map<string, Recipe>, rank: map<string, nat>, item: string, n: int, start: Store,
                            kept: seq<int>, rounds: seq<int>, snap: Store, current: Store, multiplier: int, produced: int)
    requires Ranked(book, rank)
  {
    && multiplier >= 0
    && Rounds(book, rank, start, item, kept) == Some(snap)
    && (forall k | 0 <= k < |rounds| :: rounds[k] >= 1)
    && ((rounds == kept && current == snap)
        || (multiplier >= 1 && rounds == kept + [multiplier] && Round(book, rank, snap, item, multiplier) == Some(current)))
    && (start.ore <= n ==> snap.ore <= n && produced == Sum(rounds))
    && (start.ore <= n && multiplier < 1 ==> Overshoots(book, rank, current, item, n))
    && (start.ore > n ==>
          rounds == [] && current == start && produced <= 0 && (multiplier < 1000000 ==> produced < 0))
  }

  /** Undoing a round that overshot the budget restores the snapshot and keeps the search invariant. */
  lemma Undo(book: map<string, Recipe>, rank: map<string, nat>, item: string, n: int, start: Store,
             kept: seq<int>, rounds: seq<int>, snap: Store, current: Store, multiplier: int, produced: int)
    requires Ranked(book, rank)
    requires Searching(book, rank, item, n, start, kept, rounds, snap, current, multiplier, produced)
    requires multiplier >= 1 && current.ore > n
    ensures Searching(book, rank, item, n, start, kept, kept, snap, snap, multiplier / 2, produced - multiplier)
  {
    if start.ore <= n {
      RoundsSnoc(book, rank, start, item, kept, multiplier);
    }
  }

  /** A round within the budget becomes the new snapshot's successor and keeps the search invariant. */
  lemma Advance(book: map<string, Recipe>, rank: map<string, nat>, item: string, n: int, start: Store,
                kept: seq<int>, rounds: seq<int>, snap: Store, current: Store, multiplier: int, produced: int, next: Store)
    requires Ranked(book, rank)
    requires Searching(book, rank, item, n, start, kept, rounds, snap, current, multiplier, produced)
    requires multiplier >= 1 && current.ore <= n && Round(book, rank, current, item, multiplier) == Some(next)
    ensures Searching(book, rank, item, n, start, rounds, rounds + [multiplier], current, next, multiplier, produced + multiplier)
  {
    RoundsSnoc(book, rank, start, item, kept, multiplier);
    RoundsSnoc(book, rank, start, item, rounds, multiplier);
  }

  /**
   * When the multiplier drops below 1 the search has found its answer: within
   * the budget, the current store is the one the kept rounds make,
   * `produced` is their total, and one more unit would overshoot.
   */
  lemma Finished(book: map<string, Recipe>, rank: map<string, nat>, item: string, n: int, start: Store,
                 kept: seq<int>, rounds: seq<int>, snap: Store, current: Store, multiplier: int, produced: int)
    requires Ranked(book, rank)
    requires Searching(book, rank, item, n, start, kept, rounds, snap, current, multiplier, produced)
    requires multiplier < 1
    ensures start.ore <= n ==>
      && Rounds(book, rank, start, item, rounds) == Some(current)
      && produced == Sum(rounds) && (forall k | 0 <= k < |rounds| :: rounds[k] >= 1)
      && current.ore <= n && Overshoots(book, rank, current, item, n)
    ensures start.ore > n ==> current == start && produced < 0
  {
  }

  /** Amounts that are all at least 1 add up to at least their number. */
  lemma {:induction false} SumOfPositives(xs: seq<int>)
    requires forall k | 0 <= k < |xs| :: xs[k] >= 1
    ensures Sum(xs) >= |xs|
  {
    if xs != [] {
      SumOfPositives(xs[..|xs| - 1]);
    }
  }

  class Inventory {
    /** `remaining_ingredient_map`: the leftover amount of every chemical seen so far. */
    var stock: map<string, int>
    /** `recipe_book`. */
    var book: map<string, Recipe>
    /** `total_used_ore`. */
    var totalUsedOre: int

    /** `Inventory::new`: no leftovers and no ORE used. */
    constructor (book: map<string, Recipe>)
      ensures stock == map[] && this.book == book && totalUsedOre == 0
    {
      stock := map[];
      this.book := book;
      totalUsedOre := 0;
    }

    /** The leftover amount of `name`, 0 for a chemical not seen yet. */
    function Count(name: string): int
      reads this
    {
      Leftover(stock, name)
    }

    /** `get_used_ore`: the ORE spent so far. */
    function GetUsedOre(): (u: int)
      reads this
      ensures u == totalUsedOre
    {
      totalUsedOre
    }

    /** `craft_item`: the inventory becomes what `Craft` gives; a panic changes nothing. */
    method CraftItem(item: string, amount: int) returns (ok: bool)
      modifies this
      ensures book == old(book)
      ensures var r := Craft(book, Store(old(stock), old(totalUsedOre)), item, amount);
        ok == r.Some? && (ok ==> stock == r.value.stock && totalUsedOre == r.value.ore)
      ensures !ok ==> stock == old(stock) && totalUsedOre == old(totalUsedOre)
    {
      if item !in book {
        return false;
      }
      var recipe := book[item];
      var n := Batches(amount, recipe.output.amount);
      if n.None? || |recipe.ingredients| == 0 {
        return false;
      }
      totalUsedOre := totalUsedOre + recipe.ingredients[0].amount * n.value;
      stock := stock[item := Count(item) + recipe.output.amount * n.value];
      return true;
    }

    /**
     * `request_item`: the inventory becomes what `Request` gives. `rank` is
     * the ranking that makes the recursion stop.
     */
    method RequestItem(item: string, amount: int, ghost rank: map<string, nat>) returns (ok: bool)
      requires Ranked(book, rank)
      modifies this
      decreases Height(rank, item), 1
      ensures book == old(book)
      ensures var r := Request(book, rank, Store(old(stock), old(totalUsedOre)), item, amount);
        ok == r.Some? && (ok ==> stock == r.value.stock && totalUsedOre == r.value.ore)
    {
      var count := Count(item);
      stock := stock[item := count];
      if count >= amount {
        return true;
      }
      if item !in book {
        return false;
      }
      var recipe := book[item];
      if |recipe.ingredients| == 1 && recipe.ingredients[0].name == "ORE" {
        ok := CraftItem(item, amount - count);
        return;
      }
      var n := Batches(amount - count, recipe.output.amount);
      if n.None? {
        return false;
      }
      ok := GatherIngredients(item, n.value, rank);
      if !ok {
        return;
      }
      GatherKeys(book, rank, Store(old(stock)[item := count], old(totalUsedOre)), item, n.value, 0);
      stock := stock[item := stock[item] + recipe.output.amount * n.value];
      return true;
    }

    /** One round of `craft_until_n`: the inventory becomes what `Round` gives. */
    method CraftRound(item: string, multiplier: int, ghost rank: map<string, nat>) returns (ok: bool)
      requires Ranked(book, rank)
      modifies this
      ensures book == old(book)
      ensures var r := Round(book, rank, Store(old(stock), old(totalUsedOre)), item, multiplier);
        ok == r.Some? && (ok ==> stock == r.value.stock && totalUsedOre == r.value.ore)
    {
      ok := RequestItem(item, multiplier, rank);
      if !ok || "FUEL" !in stock {
        return false;
      }
      stock := stock["FUEL" := stock["FUEL"] - multiplier];
    }

    /**
     * The ingredient loop of `request_item`: the inventory becomes what
     * `Gather` gives for `n` batches of `item`.
     */
    method GatherIngredients(item: string, n: int, ghost rank: map<string, nat>) returns (ok: bool)
      requires Ranked(book, rank) && item in book
      modifies this
      decreases Height(rank, item), 0
      ensures book == old(book)
      ensures var r := Gather(book, rank, Store(old(stock), old(totalUsedOre)), item, n, 0);
        ok == r.Some? && (ok ==> stock == r.value.stock && totalUsedOre == r.value.ore)
    {
      var ingredients := book[item].ingredients;
      ghost var recipes := book;
      ghost var goal := Gather(recipes, rank, Store(stock, totalUsedOre), item, n, 0);
      var i := 0;
      while i < |ingredients|
        invariant i <= |ingredients|
        invariant book == old(book) == recipes
        invariant Gather(recipes, rank, Store(stock, totalUsedOre), item, n, i) == goal
      {
        var ingredient := ingredients[i];
        var need := ingredient.amount * n;
        ghost var before := Store(stock, totalUsedOre);
        assert Height(rank, ingredient.name) < Height(rank, item);
        ok := RequestItem(ingredient.name, need, rank);
        if !ok {
          return;
        }
        RequestKeys(recipes, rank, before, ingredient.name, need);
        GatherStep(recipes, rank, before, item, n, i, Store(stock, totalUsedOre));
        stock := stock[ingredient.name := stock[ingredient.name] - need];
        i := i + 1;
      }
      return true;
    }

    /**
     * `craft_until_n`: searches for how much of `item` a budget of `n` ORE
     * buys. Rounds of `multiplier` units are requested, starting at 1000000;
     * each round first snapshots the inventory, and a round after which more
     * than `n` ORE is spent is undone by restoring the snapshot and halving
     * the multiplier, until it drops below 1. The result is the total of the
     * rounds kept. The source loops without bound when the ORE total never
     * exceeds `n`; `fuel` bounds the number of turns, and `None` is a panic
     * or running out of turns. `rounds` lists the multipliers of the rounds
     * the final inventory is made of.
     */
    method CraftUntilN(item: string, n: int, fuel: nat, ghost rank: map<string, nat>)
      returns (r: Option<int>, ghost rounds: seq<int>)
      requires Ranked(book, rank)
      modifies this
      ensures book == old(book)
      ensures r.Some? && old(totalUsedOre) <= n ==>
        && Rounds(book, rank, Store(old(stock), old(totalUsedOre)), item, rounds) == Some(Store(stock, totalUsedOre))
        && r.value == Sum(rounds) && (forall k | 0 <= k < |rounds| :: rounds[k] >= 1)
        && totalUsedOre <= n
        && Overshoots(book, rank, Store(stock, totalUsedOre), item, n)
      ensures r.Some? && old(totalUsedOre) > n ==>
        stock == old(stock) && totalUsedOre == old(totalUsedOre) && r.value < 0
    {
      ghost var start := Store(stock, totalUsedOre);
      ghost var recipes := book;
      var snapStock, snapOre := stock, totalUsedOre;
      ghost var kept: seq<int> := [];
      rounds := [];
      var multiplier := 1000000;
      var produced := 0;
      var left := fuel;
      while multiplier >= 1
        invariant book == old(book) == recipes
        invariant Searching(recipes, rank, item, n, start, kept, rounds, Store(snapStock, snapOre), Store(stock, totalUsedOre), multiplier, produced)
        decreases left
      {
        if left == 0 {
          return None, rounds;
        }
        left := left - 1;
        var used := GetUsedOre();
        if used > n {
          assert totalUsedOre > n;
          Undo(recipes, rank, item, n, start, kept, rounds, Store(snapStock, snapOre), Store(stock, totalUsedOre), multiplier, produced);
          produced := produced - multiplier;
          multiplier := multiplier / 2;
          stock, totalUsedOre := snapStock, snapOre;
          rounds := kept;
        } else {
          ghost var before, snap := Store(stock, totalUsedOre), Store(snapStock, snapOre);
          snapStock, snapOre := stock, totalUsedOre;
          var ok := CraftRound(item, multiplier, rank);
          if !ok {
            return None, rounds;
          }
          Advance(recipes, rank, item, n, start, kept, rounds, snap, before, multiplier, produced, Store(stock, totalUsedOre));
          kept := rounds;
          produced := produced + multiplier;
          rounds := rounds + [multiplier];
        }
      }
      Finished(recipes, rank, item, n, start, kept, rounds, Store(snapStock, snapOre), Store(stock, totalUsedOre), multiplier, produced);
      return Some(produced), rounds;
    }
  }
}
