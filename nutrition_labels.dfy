/** The additive glossary of the label-reading page and its search box. */
module NutritionLabels {
  import opened Text

  datatype Category = Sweetener | Preservative | Emulsifier | Flavor | Color
  datatype Tier = Primary | Secondary | Minor

  /** A glossary entry; the descriptive text, uses and impact shown in the detail view are not modelled. */
  datatype GlossaryItem = GlossaryItem(name: string, role: string, category: Category, tier: Tier)

  const GlossaryData: seq<GlossaryItem> := [
    GlossaryItem("Maltodextrin", "Thickener / Sweetener", Sweetener, Secondary),
    GlossaryItem("Sodium Benzoate", "Preservative", Preservative, Minor),
    GlossaryItem("Soy Lecithin", "Emulsifier", Emulsifier, Secondary),
    GlossaryItem("Carrageenan", "Thickener / Stabilizer", Emulsifier, Secondary),
    GlossaryItem("Aspartame", "Artificial Sweetener", Sweetener, Minor),
    GlossaryItem("MSG (Monosodium Glutamate)", "Flavor Enhancer", Flavor, Minor)
  ]

  /** The filter callback: the lowercased name or role includes the lowercased term. */
  predicate Matches(item: GlossaryItem, term: string) {
    Contains(ToLower(item.name), ToLower(term)) || Contains(ToLower(item.role), ToLower(term))
  }

  /** `r` is `s` with some elements left out, the rest in their original order. */
  predicate IsSubsequence<T(==)>(r: seq<T>, s: seq<T>)
    decreases |s|
  {
    if r == [] then true
    else if s == [] then false
    else if r[0] == s[0] then IsSubsequence(r[1..], s[1..])
    else IsSubsequence(r, s[1..])
  }

  /** `items.filter(item => Matches(item, term))`. */
  function Filter(items: seq<GlossaryItem>, term: string): (r: seq<GlossaryItem>)
    ensures |r| <= |items|
    ensures IsSubsequence(r, items)
    ensures forall x :: x in r <==> x in items && Matches(x, term)
    ensures forall x :: multiset(r)[x] == if Matches(x, term) then multiset(items)[x] else 0
  {
    if items == [] then []
    else
      var rest := Filter(items[1..], term);
      assert items == [items[0]] + items[1..];
      if Matches(items[0], term) then
        assert ([items[0]] + rest)[1..] == rest;
        [items[0]] + rest
      else
        assert rest != [] ==> rest[0] in items[1..] && rest[0] != items[0];
        rest
  }

  /** `filteredGlossary`, whose length is the "Entries Available" count. */
  function FilteredGlossary(searchTerm: string): (r: seq<GlossaryItem>)
    ensures |r| <= |GlossaryData|
  {
    Filter(GlossaryData, searchTerm)
  }

  /** An empty search shows the whole glossary, in order. */
  lemma {:induction false} EmptyTermKeepsAll(items: seq<GlossaryItem>)
    ensures Filter(items, "") == items
  {
    if items != [] {
      ContainsEmpty(ToLower(items[0].name));
      EmptyTermKeepsAll(items[1..]);
      assert [items[0]] + items[1..] == items;
    }
  }

  /** Search terms that differ only in letter case give the same entries. */
  lemma {:induction false} CaseInsensitive(items: seq<GlossaryItem>, t1: string, t2: string)
    requires EqualIgnoringCase(t1, t2)
    ensures Filter(items, t1) == Filter(items, t2)
  {
    EqualIgnoringCaseIffSameLower(t1, t2);
    if items != [] {
      CaseInsensitive(items[1..], t1, t2);
    }
  }

  /** In particular, shouting the term changes nothing. */
  lemma UpperCaseTermSameResult(items: seq<GlossaryItem>, t: string)
    ensures Filter(items, ToUpper(t)) == Filter(items, t)
  {
    ToLowerOfToUpper(t);
    CaseInsensitive(items, ToUpper(t), t);
  }

  /** An entry matching a term matches every term the first one includes. */
  lemma MatchesWeaker(x: GlossaryItem, t: string, t': string)
    requires Contains(t', t) && Matches(x, t')
    ensures Matches(x, t)
  {
    ContainsToLower(t', t);
    if Contains(ToLower(x.name), ToLower(t')) {
      ContainsTransitive(ToLower(x.name), ToLower(t'), ToLower(t));
    } else {
      ContainsTransitive(ToLower(x.role), ToLower(t'), ToLower(t));
    }
  }

  /**
   * Typing more narrows the search: the results of a longer term `t'` that includes `t`
   * are the results of `t` filtered once more by `t'`, so they are a subsequence of them.
   */
  lemma {:induction false} Monotone(items: seq<GlossaryItem>, t: string, t': string)
    requires Contains(t', t)
    ensures Filter(Filter(items, t), t') == Filter(items, t')
    ensures IsSubsequence(Filter(items, t'), Filter(items, t))
  {
    if items != [] {
      Monotone(items[1..], t, t');
      if Matches(items[0], t') {
        MatchesWeaker(items[0], t, t');
      }
    }
  }

  datatype Badge = Emerald | Amber | Slate

  /** The colour of an entry's tier badge. */
  function TierBadge(tier: Tier): (b: Badge)
    ensures b == Emerald <==> tier == Primary
    ensures b == Amber <==> tier == Secondary
    ensures b == Slate <==> tier != Primary && tier != Secondary
  {
    if tier == Primary then Emerald else if tier == Secondary then Amber else Slate
  }
}
