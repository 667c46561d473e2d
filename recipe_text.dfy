/**
 * Day 14, the recipe lines written out: how a recipe is written as a line of
 * the puzzle input ("7 A, 1 B => 1 C"), and the proof that `Recipe::new`
 * reads every such line back as the recipe it was written from.
 */
module RecipeText {
  import opened Outcomes
  import opened Text
  import opened Reactions

  /** An ingredient written as the puzzle writes it: "<amount> <name>". */
  function ShowIngredient(x: Ingredient): string
  {
    Show(x.amount) + " " + x.name
  }

  /** Each ingredient of `xs` written out, in order. */
  function Written(xs: seq<Ingredient>): (words: seq<string>)
    ensures |words| == |xs|
  {
    seq(|xs|, j requires 0 <= j < |xs| => ShowIngredient(xs[j]))
  }

  /** A list of ingredients written as the left side of a recipe line: "7 A, 1 B". */
  function ShowIngredients(xs: seq<Ingredient>): string
    requires |xs| >= 1
  {
    Join(Written(xs), ", ")
  }

  /** What a recipe line holds before its "=>": the ingredient list and a space, or nothing when there are no ingredients. */
  function LeftSide(xs: seq<Ingredient>): string
  {
    if xs == [] then "" else ShowIngredients(xs) + " "
  }

  /** A recipe written as a line of the puzzle input: "7 A, 1 B => 1 C". */
  function ShowRecipe(r: Recipe): string
  {
    LeftSide(r.ingredients) + "=> " + ShowIngredient(r.output)
  }

  /** `s` holds no `c`. */
  predicate Lacks(s: string, c: char)
  {
    forall i | 0 <= i < |s| :: s[i] != c
  }

  /** A chemical name as the puzzle writes it: a non-empty word without whitespace, ',' or '='. */
  predicate PlainName(name: string)
  {
    name != [] && Lacks(name, ',') && Lacks(name, '=') && forall i | 0 <= i < |name| :: !IsSpace(name[i])
  }

  /** An ingredient the recipe syntax can carry: an `i64` amount and a plain name. */
  predicate Writable(x: Ingredient)
  {
    I64Min <= x.amount <= I64Max && PlainName(x.name)
  }

  /** A written ingredient holds neither ',' nor '='. */
  lemma ShowIngredientLacks(x: Ingredient)
    requires Writable(x)
    ensures Lacks(ShowIngredient(x), ',') && Lacks(ShowIngredient(x), '=')
  {
    ShowChars(x.amount);
  }

  /** Joining words that lack `c` with a separator that lacks `c` gives a string that lacks `c`. */
  lemma {:induction false} JoinLacks(words: seq<string>, sep: string, c: char)
    requires |words| >= 1 && Lacks(sep, c)
    requires forall j | 0 <= j < |words| :: Lacks(words[j], c)
    ensures Lacks(Join(words, sep), c)
    decreases |words|
  {
    if |words| > 1 {
      JoinLacks(words[1..], sep, c);
    }
  }

  /** Leading whitespace is what `trim_start` removes. */
  lemma {:induction false} TrimStartPadded(pre: string, rest: string)
    requires forall i | 0 <= i < |pre| :: IsSpace(pre[i])
    requires rest != [] && !IsSpace(rest[0])
    ensures TrimStart(pre + rest) == rest
  {
    if pre != [] {
      assert (pre + rest)[0] == pre[0];
      assert (pre + rest)[1..] == pre[1..] + rest;
      TrimStartPadded(pre[1..], rest);
    } else {
      assert pre + rest == rest;
    }
  }

  /** Trailing whitespace is what `trim_end` removes. */
  lemma {:induction false} TrimEndPadded(core: string, post: string)
    requires forall i | 0 <= i < |post| :: IsSpace(post[i])
    requires core != [] && !IsSpace(core[|core| - 1])
    ensures TrimEnd(core + post) == core
  {
    if post != [] {
      assert (core + post)[..|core + post| - 1] == core + post[..|post| - 1];
      TrimEndPadded(core, post[..|post| - 1]);
    }
  }

  /** Whitespace around a word that starts and ends with something else is what `trim` removes. */
  lemma TrimPadded(pre: string, core: string, post: string)
    requires forall i | 0 <= i < |pre| :: IsSpace(pre[i])
    requires forall i | 0 <= i < |post| :: IsSpace(post[i])
    requires core != [] && !IsSpace(core[0]) && !IsSpace(core[|core| - 1])
    ensures Trim(pre + core + post) == core
  {
    assert pre + core + post == pre + (core + post);
    assert (core + post)[0] == core[0];
    TrimStartPadded(pre, core + post);
    TrimEndPadded(core, post);
  }

  /** `Ingredient::new` reads only the trimmed text. */
  lemma ParseTrimmed(s: string, t: string)
    requires Trim(s) == Trim(t)
    ensures ParseIngredient(s) == ParseIngredient(t)
  {
  }

  /** Padding a written ingredient with whitespace does not change what `Ingredient::new` reads. */
  lemma ParsePadded(pre: string, x: Ingredient, post: string)
    requires Writable(x)
    requires forall i | 0 <= i < |pre| :: IsSpace(pre[i])
    requires forall i | 0 <= i < |post| :: IsSpace(post[i])
    ensures ParseIngredient(pre + ShowIngredient(x) + post) == Some(x)
  {
    var core := ShowIngredient(x);
    ShowUnspaced(x.amount);
    assert core[0] == Show(x.amount)[0] && core[|core| - 1] == x.name[|x.name| - 1];
    TrimPadded(pre, core, post);
    TrimKeeps(core);
    ParseTrimmed(pre + core + post, core);
    IngredientRoundTrip(x.amount, x.name);
  }

  /** No "=>" starts inside the `a` part of `a + rest` when `a` holds no '='. */
  lemma NoArrowBefore(a: string, rest: string)
    requires Lacks(a, '=')
    ensures forall k | 0 <= k < |a| :: !MatchesAt(a + rest, "=>", k)
  {
    var s := a + rest;
    forall k | 0 <= k < |a| ensures !MatchesAt(s, "=>", k) {
      if k + 2 <= |s| {
        assert s[k..k + 2][0] == s[k] == a[k];
      }
    }
  }

  /** A line with one "=>" and no other '=' splits into the text before and after it. */
  lemma SplitArrow(a: string, b: string)
    requires Lacks(a, '=') && Lacks(b, '=')
    ensures SplitTerminator(a + "=>" + b, "=>") == (if b == [] then [a] else [a, b])
  {
    var s := a + "=>" + b;
    assert s == a + ("=>" + b);
    assert s[|a|..|a| + 2] == "=>";
    assert MatchesAt(s, "=>", |a|);
    NoArrowBefore(a, "=>" + b);
    var f := FindFrom(s, "=>", 0);
    assert f.Some? && f.value == |a|;
    assert s[..|a|] == a && s[|a| + 2..] == b;
    NoArrowBefore(b, "");
    assert b + "" == b;
    assert FindFrom(b, "=>", 0).None?;
    assert Split(b, "=>") == [b];
  }

  /** The pieces a ','-split of joined words gives: each word, the first led by `lead`, the others by a space, and the last followed by a space. */
  function PaddedWords(lead: string, words: seq<string>): (pieces: seq<string>)
    ensures |pieces| == |words|
  {
    seq(|words|, j requires 0 <= j < |words| => (if j == 0 then lead else " ") + words[j] + (if j == |words| - 1 then " " else ""))
  }

  /** Past the first word, the padded words are the rest padded with a leading space. */
  lemma PaddedWordsCons(lead: string, words: seq<string>)
    requires |words| >= 2
    ensures PaddedWords(lead, words) == [lead + words[0]] + PaddedWords(" ", words[1..])
  {
    var padded := PaddedWords(lead, words);
    var rest := PaddedWords(" ", words[1..]);
    assert padded[0] == lead + words[0] + "" == lead + words[0];
    assert forall j | 1 <= j < |words| :: padded[j] == rest[j - 1];
  }

  /** The first ", " of the joined words, seen as a ',' between the first word and the rest. */
  lemma CommaRegroup(lead: string, first: string, joined: string)
    ensures lead + (first + ", " + joined) + " " == (lead + first) + [','] + (" " + joined + " ")
  {
  }

  /** Cutting words joined with ", " at ',' gives the padded words. */
  lemma {:induction false} CommaSplit(lead: string, words: seq<string>)
    requires |words| >= 1 && forall j | 0 <= j < |words| :: Lacks(words[j], ',')
    requires Lacks(lead, ',')
    ensures SplitAny(lead + Join(words, ", ") + " ", {','}) == PaddedWords(lead, words)
    decreases |words|
  {
    var first := lead + words[0];
    assert forall i | 0 <= i < |first| :: first[i] !in {','};
    if |words| == 1 {
      var s := first + " ";
      assert forall i | 0 <= i < |s| :: s[i] !in {','};
      SplitAnyFree(s, {','});
      assert PaddedWords(lead, words) == [s];
    } else {
      var rest := words[1..];
      CommaRegroup(lead, words[0], Join(rest, ", "));
      SplitAnyFirst(first, ',', " " + Join(rest, ", ") + " ", {','});
      CommaSplit(" ", rest);
      PaddedWordsCons(lead, words);
    }
  }

  /** Cutting the left side of a written recipe line at ',' gives the padded written ingredients. */
  lemma LeftSidePieces(xs: seq<Ingredient>)
    requires |xs| >= 1 && forall j | 0 <= j < |xs| :: Writable(xs[j])
    ensures SplitTerminatorAny(ShowIngredients(xs) + " ", {','}) == PaddedWords("", Written(xs))
  {
    var words := Written(xs);
    forall j | 0 <= j < |xs| ensures Lacks(words[j], ',') {
      ShowIngredientLacks(xs[j]);
    }
    assert "" + Join(words, ", ") + " " == ShowIngredients(xs) + " ";
    CommaSplit("", words);
    var pieces := PaddedWords("", words);
    assert pieces[|pieces| - 1] != [];
  }

  /** Each padded written ingredient reads back as the ingredient. */
  lemma PaddedParse(xs: seq<Ingredient>)
    requires |xs| >= 1 && forall j | 0 <= j < |xs| :: Writable(xs[j])
    ensures forall j | 0 <= j < |xs| :: ParseIngredient(PaddedWords("", Written(xs))[j]) == Some(xs[j])
  {
    var pieces := PaddedWords("", Written(xs));
    forall j | 0 <= j < |xs| ensures ParseIngredient(pieces[j]) == Some(xs[j]) {
      var pre: string := if j == 0 then "" else " ";
      var post: string := if j == |xs| - 1 then " " else "";
      assert pieces[j] == pre + ShowIngredient(xs[j]) + post;
      ParsePadded(pre, xs[j], post);
    }
  }

  /** Pieces that each parse to the matching value parse, as a list, to the values. */
  lemma ParseEachAll<T>(pieces: seq<string>, parse: string -> Option<T>, values: seq<T>)
    requires |pieces| == |values|
    requires forall j | 0 <= j < |values| :: parse(pieces[j]) == Some(values[j])
    ensures ParseEach(pieces, parse) == Some(values)
  {
    ParseEachMeaning(pieces, parse);
    assert forall j | 0 <= j < |pieces| :: parse(pieces[j]).Some?;
    var found := ParseEach(pieces, parse).value;
    assert forall j | 0 <= j < |values| :: found[j] == values[j];
    assert found == values;
  }

  /** The left side of a written recipe line, with the space before "=>", reads back as the ingredient list. */
  lemma LeftSideParses(xs: seq<Ingredient>)
    requires forall j | 0 <= j < |xs| :: Writable(xs[j])
    ensures ParseEach(SplitTerminatorAny(LeftSide(xs), {','}), ParseIngredient) == Some(xs)
  {
    if xs == [] {
      assert SplitAny("", {','}) == [""];
    } else {
      LeftSidePieces(xs);
      PaddedParse(xs);
      ParseEachAll(PaddedWords("", Written(xs)), ParseIngredient, xs);
    }
  }

  /** A written recipe line splits at "=>" into the ingredient list with its trailing space and the output with its leading space. */
  lemma RecipeSides(r: Recipe)
    requires forall j | 0 <= j < |r.ingredients| :: Writable(r.ingredients[j])
    requires Writable(r.output)
    ensures SplitTerminator(ShowRecipe(r), "=>") == [LeftSide(r.ingredients), " " + ShowIngredient(r.output)]
  {
    if r.ingredients != [] {
      var words := Written(r.ingredients);
      forall j | 0 <= j < |words| ensures Lacks(words[j], '=') {
        ShowIngredientLacks(r.ingredients[j]);
      }
      JoinLacks(words, ", ", '=');
    }
    ShowIngredientLacks(r.output);
    var left := LeftSide(r.ingredients);
    var right := " " + ShowIngredient(r.output);
    assert Lacks(left, '=') && Lacks(right, '=');
    assert ShowRecipe(r) == left + "=>" + right;
    SplitArrow(left, right);
  }

  /** `Recipe::new` on a line that splits at "=>" into two parts that parse. */
  lemma ParseRecipeOf(line: string, left: string, right: string, ingredients: seq<Ingredient>, output: Ingredient)
    requires SplitTerminator(line, "=>") == [left, right]
    requires ParseEach(SplitTerminatorAny(left, {','}), ParseIngredient) == Some(ingredients)
    requires ParseIngredient(right) == Some(output)
    ensures ParseRecipe(line) == Some(Recipe(ingredients, output))
  {
  }

  /**
   * Writing a recipe as a line and reading it back with `Recipe::new` gives
   * the recipe: the line is cut at "=>", the left side at ',' into the
   * ingredients, and the right side is the output. A recipe without
   * ingredients is written "=> 1 C", which reads back with none.
   */
  lemma RecipeRoundTrip(r: Recipe)
    requires forall j | 0 <= j < |r.ingredients| :: Writable(r.ingredients[j])
    requires Writable(r.output)
    ensures ParseRecipe(ShowRecipe(r)) == Some(r)
  {
    var left := LeftSide(r.ingredients);
    var right := " " + ShowIngredient(r.output);
    RecipeSides(r);
    LeftSideParses(r.ingredients);
    assert " " + ShowIngredient(r.output) + "" == right;
    ParsePadded(" ", r.output, "");
    ParseRecipeOf(ShowRecipe(r), left, right, r.ingredients, r.output);
  }
}
