/**
 * validate_extracted_params (graph.py:164-234): the deterministic correction
 * of the language model's guess. The limit comes from the first number of the
 * query; the field list from the field keywords and restriction markers found
 * in it; filters and description are defaulted when missing.
 */
module Validator {
  import opened Wrappers
  import opened PyValues
  import opened QueryText

  /** valid_fields (graph.py:181): the field vocabulary, in its canonical order. */
  const Vocabulary: seq<string> := ["userId", "id", "title", "body"]

  /** field_keywords (graph.py:184-189), in its own order, which differs from Vocabulary's. */
  const FieldKeywords: seq<(string, seq<string>)> := [
    ("title", ["title", "titre"]),
    ("id", ["id", "identifiant"]),
    ("userId", ["userid", "user", "utilisateur"]),
    ("body", ["body", "contenu", "texte"])
  ]

  /** restriction_keywords (graph.py:202) */
  const RestrictionMarkers: seq<string> := ["avec", "seulement", "uniquement", "juste"]

  const DefaultLimit: int := 10

  /** Some keyword of the list passes the keyword test on the lowered query. */
  predicate MentionsAny(lower: string, keywords: seq<string>)
  {
    exists k | 0 <= k < |keywords| :: KeywordTest(lower, keywords[k])
  }

  /** Field f is mentioned: one of its keywords is a space-bounded word of the lowered query. */
  predicate FieldMentioned(lower: string, f: string)
  {
    exists t | 0 <= t < |FieldKeywords| :: FieldKeywords[t].0 == f && MentionsAny(lower, FieldKeywords[t].1)
  }

  /** has_restriction_keywords: a plain substring test, so "ajuster" counts as containing "juste". */
  predicate HasRestrictionMarker(lower: string)
  {
    exists k | 0 <= k < |RestrictionMarkers| :: Contains(lower, RestrictionMarkers[k])
  }

  /** mentioned_fields after the loop has visited the first n entries of the keyword table. */
  function MentionedAmong(lower: string, n: nat): seq<string>
    requires n <= |FieldKeywords|
  {
    if n == 0 then []
    else
      MentionedAmong(lower, n - 1)
      + (if MentionsAny(lower, FieldKeywords[n - 1].1) then [FieldKeywords[n - 1].0] else [])
  }

  /** mentioned_fields once the loop of graph.py:193-197 is done. */
  function MentionedFields(lower: string): seq<string>
  {
    MentionedAmong(lower, |FieldKeywords|)
  }

  /** The position of a field in the keyword table; |FieldKeywords| for any other name. */
  function TableIndex(f: string): nat
  {
    TableIndexFrom(f, 0)
  }

  function TableIndexFrom(f: string, t: nat): nat
    decreases |FieldKeywords| - t
  {
    if t >= |FieldKeywords| then |FieldKeywords|
    else if FieldKeywords[t].0 == f then t
    else TableIndexFrom(f, t + 1)
  }

  lemma TableIndexOfEntry(t: nat)
    requires t < |FieldKeywords|
    ensures TableIndex(FieldKeywords[t].0) == t
  {
    assert TableIndex("title") == 0;
    assert TableIndex("id") == 1;
    assert TableIndex("userId") == 2;
    assert TableIndex("body") == 3;
  }

  lemma {:induction false} MentionedAmongSpec(lower: string, n: nat)
    requires n <= |FieldKeywords|
    ensures forall f :: f in MentionedAmong(lower, n) <==>
              exists t | 0 <= t < n :: FieldKeywords[t].0 == f && MentionsAny(lower, FieldKeywords[t].1)
    ensures forall a :: 0 <= a < |MentionedAmong(lower, n)| ==> TableIndex(MentionedAmong(lower, n)[a]) < n
    ensures forall a, b :: 0 <= a < b < |MentionedAmong(lower, n)| ==>
              TableIndex(MentionedAmong(lower, n)[a]) < TableIndex(MentionedAmong(lower, n)[b])
  {
    if n > 0 {
      MentionedAmongSpec(lower, n - 1);
      TableIndexOfEntry(n - 1);
      var prev := MentionedAmong(lower, n - 1);
      var m := MentionedAmong(lower, n);
      assert forall a :: 0 <= a < |prev| ==> m[a] == prev[a];
    }
  }

  /**
   * The mentioned fields are exactly the fields whose keywords occur as
   * space-bounded words of the lowered query, each once, in keyword-table
   * order (title, id, userId, body).
   */
  lemma MentionedFieldsExact(lower: string)
    ensures forall f :: f in MentionedFields(lower) <==> FieldMentioned(lower, f)
    ensures forall a, b :: 0 <= a < b < |MentionedFields(lower)| ==>
              TableIndex(MentionedFields(lower)[a]) < TableIndex(MentionedFields(lower)[b])
    ensures forall f :: f in MentionedFields(lower) ==> f in Vocabulary
  {
    MentionedAmongSpec(lower, |FieldKeywords|);
  }

  /** `[field for field in fields if field in valid_fields]` (graph.py:221) */
  function KeepVocabulary(items: seq<Json>): (kept: seq<string>)
    ensures forall f :: f in kept ==> f in Vocabulary
    ensures forall f {:trigger f in kept} :: f in kept <==> JStr(f) in items && f in Vocabulary
  {
    if items == [] then []
    else
      var rest := KeepVocabulary(items[1..]);
      assert forall x :: x in items <==> x == items[0] || x in items[1..];
      if items[0].JStr? && items[0].s in Vocabulary then [items[0].s] + rest else rest
  }

  /** The fallback of graph.py:215-223: the guess's list, filtered, or the whole vocabulary. */
  function GuessFields(guess: Dict): seq<string>
  {
    if !Has(guess, "fields") || !Get(guess, "fields").JArray? then Vocabulary
    else
      var kept := KeepVocabulary(Get(guess, "fields").items);
      if kept == [] then Vocabulary else kept
  }

  /** The field list graph.py:206-223 settles on; never empty, never outside the vocabulary. */
  function ResolvedFields(guess: Dict, lower: string): (fields: seq<string>)
    ensures |fields| > 0
    ensures forall f :: f in fields ==> f in Vocabulary
  {
    MentionedFieldsExact(lower);
    var mentioned := MentionedFields(lower);
    if mentioned != [] && HasRestrictionMarker(lower) then mentioned
    else if mentioned == [] then Vocabulary
    else GuessFields(guess)
  }

  /**
   * Filtering the guess keeps every vocabulary name as often as the guess
   * lists it, and drops everything else.
   */
  lemma {:induction false} KeepVocabularyCounts(items: seq<Json>)
    ensures forall f :: multiset(KeepVocabulary(items))[f] == if f in Vocabulary then multiset(items)[JStr(f)] else 0
  {
    if items != [] {
      KeepVocabularyCounts(items[1..]);
      assert items == [items[0]] + items[1..];
      assert multiset(items) == multiset{items[0]} + multiset(items[1..]);
    }
  }

  /**
   * Filtering keeps the guess's order: it distributes over concatenation, and
   * a single item is kept exactly when it is a vocabulary name. Together these
   * say the kept names are the guess's vocabulary strings, in the guess's order.
   */
  lemma {:induction false} KeepVocabularyOrder(a: seq<Json>, b: seq<Json>)
    ensures KeepVocabulary(a + b) == KeepVocabulary(a) + KeepVocabulary(b)
    ensures |a| == 1 ==> KeepVocabulary(a) == KeptName(a[0])
  {
    if a == [] {
      assert a + b == b;
    } else {
      KeepVocabularyOrder(a[1..], b);
      KeepVocabularyStep(a, b);
      if |a| == 1 {
        KeepVocabularyUnfold(a);
        assert a[1..] == [];
      }
    }
  }

  /** A guess list made only of vocabulary names comes through the filter unchanged. */
  lemma {:induction false} KeepVocabularyKeepsValid(items: seq<Json>)
    requires forall i :: 0 <= i < |items| ==> items[i].JStr? && items[i].s in Vocabulary
    ensures StrArray(KeepVocabulary(items)) == JArray(items)
  {
    if items != [] {
      KeepVocabularyKeepsValid(items[1..]);
      KeepVocabularyUnfold(items);
      var kept := KeepVocabulary(items);
      assert kept == [items[0].s] + KeepVocabulary(items[1..]);
      assert StrArray(kept).items == items;
    }
  }

  /** The name a single guess item contributes: itself when it is a vocabulary string, else nothing. */
  function KeptName(x: Json): seq<string>
  {
    if x.JStr? && x.s in Vocabulary then [x.s] else []
  }

  lemma KeepVocabularyUnfold(items: seq<Json>)
    requires items != []
    ensures KeepVocabulary(items) == KeptName(items[0]) + KeepVocabulary(items[1..])
  {
    if !(items[0].JStr? && items[0].s in Vocabulary) {
      assert KeptName(items[0]) + KeepVocabulary(items[1..]) == KeepVocabulary(items[1..]);
    }
  }

  /** One step of the induction: the first item of a contributes the same head on both sides. */
  lemma KeepVocabularyStep(a: seq<Json>, b: seq<Json>)
    requires a != []
    requires KeepVocabulary(a[1..] + b) == KeepVocabulary(a[1..]) + KeepVocabulary(b)
    ensures KeepVocabulary(a + b) == KeepVocabulary(a) + KeepVocabulary(b)
  {
    var head, x, y := KeptName(a[0]), KeepVocabulary(a[1..]), KeepVocabulary(b);
    assert KeepVocabulary(a + b) == head + (x + y) by {
      assert (a + b)[1..] == a[1..] + b;
      assert (a + b)[0] == a[0];
      KeepVocabularyUnfold(a + b);
    }
    assert KeepVocabulary(a) == head + x by {
      KeepVocabularyUnfold(a);
    }
    ConcatAssociates(head, x, y);
  }

  lemma ConcatAssociates(p: seq<string>, q: seq<string>, r: seq<string>)
    ensures p + (q + r) == (p + q) + r
  {
  }

  /**
   * The three branches of graph.py:206-223 in terms of the query: with a
   * field mentioned and a restriction marker, exactly the mentioned fields in
   * keyword-table order; with no field mentioned, the whole vocabulary;
   * otherwise the guess's own list, filtered, or the vocabulary when that
   * leaves nothing.
   */
  lemma ResolvedFieldsCases(guess: Dict, lower: string)
    ensures var fields := ResolvedFields(guess, lower);
            && ((exists f :: FieldMentioned(lower, f)) && HasRestrictionMarker(lower) ==>
                  && (forall f :: f in fields <==> FieldMentioned(lower, f))
                  && forall a, b :: 0 <= a < b < |fields| ==> TableIndex(fields[a]) < TableIndex(fields[b]))
            && ((forall f :: !FieldMentioned(lower, f)) ==> fields == Vocabulary)
            && ((exists f :: FieldMentioned(lower, f)) && !HasRestrictionMarker(lower) ==> fields == GuessFields(guess))
  {
    MentionedFieldsExact(lower);
    var mentioned := MentionedFields(lower);
    if mentioned != [] {
      assert FieldMentioned(lower, mentioned[0]);
    }
  }

  /** The guessed limit is kept only when it is an int (a bool passes isinstance) above 0. */
  predicate GuessLimitUsable(guess: Dict)
  {
    Has(guess, "limit") && IsIntLike(Get(guess, "limit")) && IntValue(Get(guess, "limit")) > 0
  }

  /** The limit graph.py:171-177 settles on. It is never negative, but it is 0 for a query whose first number is 0. */
  function ResolvedLimit(guess: Dict, query: string): (limit: Json)
    ensures IsIntLike(limit) && IntValue(limit) >= 0
  {
    match FirstNumber(query)
    case Some(n) => JInt(n)
    case None => if GuessLimitUsable(guess) then Get(guess, "limit") else JInt(DefaultLimit)
  }

  /** The description synthesised at graph.py:232. */
  function DescriptionText(limit: Json, fields: seq<string>): string
    requires IsIntLike(limit)
  {
    "Récupération de " + IntLikeText(limit) + " posts avec les champs " + Join(fields, ", ")
  }

  /** The keys validate_extracted_params rewrites. */
  const ManagedKeys: set<string> := {"limit", "fields", "filters", "description"}

  /** The shape of every dict validate_extracted_params returns. */
  predicate ValidSpec(d: Dict)
  {
    && Has(d, "limit") && IsIntLike(Get(d, "limit")) && IntValue(Get(d, "limit")) >= 0
    && Has(d, "fields") && IsStrArray(Get(d, "fields")) && |StrItems(Get(d, "fields"))| > 0
    && (forall f :: f in StrItems(Get(d, "fields")) ==> f in Vocabulary)
    && Has(d, "filters") && Get(d, "filters").JObject?
    && Has(d, "description")
  }

  /** The filters a guess ends up with: its own when they form a dict, {} otherwise. */
  function ResolvedFilters(guess: Dict): Json
  {
    if Has(guess, "filters") && Get(guess, "filters").JObject? then Get(guess, "filters") else JObject([])
  }

  /** The facts about each managed key that ValidSpec and the contract of ValidateExtractedParams rest on. */
  lemma ValidFromLookups(d: Dict, params: Dict, limit: Json, fields: seq<string>)
    requires IsIntLike(limit) && IntValue(limit) >= 0
    requires |fields| > 0 && forall f :: f in fields ==> f in Vocabulary
    requires Lookup(d, "limit") == Some(limit)
    requires Lookup(d, "fields") == Some(StrArray(fields))
    requires Lookup(d, "filters") == Some(ResolvedFilters(params))
    requires Has(d, "description")
    ensures ValidSpec(d)
    ensures Get(d, "limit") == limit
    ensures StrItems(Get(d, "fields")) == fields
    ensures Get(d, "filters") == ResolvedFilters(params)
  {
    StrArrayRoundTrip(fields);
  }

  /** Step 1 of validate_extracted_params (graph.py:170-178) on the dict as a value. */
  function LimitStep(p: Dict, userQuery: string): (q: Dict)
    ensures Lookup(q, "limit") == Some(ResolvedLimit(p, userQuery))
    ensures forall k :: k != "limit" ==> Lookup(q, k) == Lookup(p, k)
    ensures DistinctKeys(p) ==> DistinctKeys(q)
  {
    match FirstNumber(userQuery)
    case Some(n) => Put(p, "limit", JInt(n))
    case None => if GuessLimitUsable(p) then p else Put(p, "limit", JInt(DefaultLimit))
  }

  /** Step 2 (graph.py:180-224) on the dict as a value. */
  function FieldsStep(p: Dict, lower: string): (q: Dict)
    ensures Lookup(q, "fields") == Some(StrArray(ResolvedFields(p, lower)))
    ensures forall k :: k != "fields" ==> Lookup(q, k) == Lookup(p, k)
    ensures DistinctKeys(p) ==> DistinctKeys(q)
  {
    Put(p, "fields", StrArray(ResolvedFields(p, lower)))
  }

  /** Step 3 (graph.py:226-228) on the dict as a value. */
  function FiltersStep(p: Dict): (q: Dict)
    ensures Lookup(q, "filters") == Some(ResolvedFilters(p))
    ensures forall k :: k != "filters" ==> Lookup(q, k) == Lookup(p, k)
    ensures DistinctKeys(p) ==> DistinctKeys(q)
  {
    if Has(p, "filters") && Get(p, "filters").JObject? then p else Put(p, "filters", JObject([]))
  }

  /** Step 4 (graph.py:230-232) on the dict as a value. */
  function DescriptionStep(p: Dict): (q: Dict)
    requires Has(p, "limit") && IsIntLike(Get(p, "limit"))
    requires Has(p, "fields") && IsStrArray(Get(p, "fields"))
    ensures Has(p, "description") ==> Lookup(q, "description") == Lookup(p, "description")
    ensures !Has(p, "description") ==>
              Lookup(q, "description") == Some(JStr(DescriptionText(Get(p, "limit"), StrItems(Get(p, "fields")))))
    ensures forall k :: k != "description" ==> Lookup(q, k) == Lookup(p, k)
    ensures DistinctKeys(p) ==> DistinctKeys(q)
  {
    if Has(p, "description") then p
    else Put(p, "description", JStr(DescriptionText(Get(p, "limit"), StrItems(Get(p, "fields")))))
  }

  /** The dict the first three steps hand to the fourth. */
  function FirstThreeSteps(params: Dict, userQuery: string): (p3: Dict)
    ensures Lookup(p3, "limit") == Some(ResolvedLimit(params, userQuery))
    ensures Lookup(p3, "fields") == Some(StrArray(ResolvedFields(params, Lower(userQuery))))
    ensures Lookup(p3, "filters") == Some(ResolvedFilters(params))
    ensures forall k :: k !in ManagedKeys ==> Lookup(p3, k) == Lookup(params, k)
    ensures Lookup(p3, "description") == Lookup(params, "description")
    ensures DistinctKeys(params) ==> DistinctKeys(p3)
  {
    var p1 := LimitStep(params, userQuery);
    SameEntry(p1, params, "fields");
    SameEntry(p1, params, "filters");
    assert ResolvedFields(p1, Lower(userQuery)) == ResolvedFields(params, Lower(userQuery));
    var p2 := FieldsStep(p1, Lower(userQuery));
    SameEntry(p2, p1, "filters");
    assert ResolvedFilters(p2) == ResolvedFilters(params);
    FiltersStep(p2)
  }

  /** What validate_extracted_params returns, as a value: the four steps in order. */
  function Validated(params: Dict, userQuery: string): (validated: Dict)
    ensures Lookup(validated, "limit") == Some(ResolvedLimit(params, userQuery))
    ensures Lookup(validated, "fields") == Some(StrArray(ResolvedFields(params, Lower(userQuery))))
  {
    var p3 := FirstThreeSteps(params, userQuery);
    DescriptionStep(p3)
  }

  /** The last step leaves the description of the guess, or the synthesised one, and every other key alone. */
  lemma DescriptionStepLookups(params: Dict, userQuery: string)
    ensures var validated, p3 := Validated(params, userQuery), FirstThreeSteps(params, userQuery);
            && (forall k :: k != "description" ==> Lookup(validated, k) == Lookup(p3, k))
            && Has(validated, "description")
            && (Has(params, "description") ==> Lookup(validated, "description") == Lookup(params, "description"))
            && (!Has(params, "description") ==>
                  Lookup(validated, "description")
                  == Some(JStr(DescriptionText(ResolvedLimit(params, userQuery), ResolvedFields(params, Lower(userQuery))))))
            && (DistinctKeys(params) ==> DistinctKeys(validated))
  {
    var p3 := FirstThreeSteps(params, userQuery);
    StrArrayRoundTrip(ResolvedFields(params, Lower(userQuery)));
    SameEntry(p3, params, "description");
  }

  /**
   * The result of validate_extracted_params: every managed key holds its
   * resolution from the guess and the query, and every other key is as the
   * guess had it.
   */
  lemma ValidatedSpec(params: Dict, userQuery: string)
    ensures ValidSpec(Validated(params, userQuery))
    ensures Get(Validated(params, userQuery), "limit") == ResolvedLimit(params, userQuery)
    ensures StrItems(Get(Validated(params, userQuery), "fields")) == ResolvedFields(params, Lower(userQuery))
    ensures Get(Validated(params, userQuery), "filters") == ResolvedFilters(params)
    ensures Has(params, "description") ==> Get(Validated(params, userQuery), "description") == Get(params, "description")
    ensures !Has(params, "description") ==>
              Get(Validated(params, userQuery), "description")
              == JStr(DescriptionText(ResolvedLimit(params, userQuery), ResolvedFields(params, Lower(userQuery))))
    ensures forall k :: k !in ManagedKeys ==> Lookup(Validated(params, userQuery), k) == Lookup(params, k)
    ensures DistinctKeys(params) ==> DistinctKeys(Validated(params, userQuery))
  {
    var validated := Validated(params, userQuery);
    DescriptionStepLookups(params, userQuery);
    if Has(params, "description") {
      SameEntry(validated, params, "description");
    }
    ValidFromLookups(validated, params, ResolvedLimit(params, userQuery), ResolvedFields(params, Lower(userQuery)));
  }

  /** Step 1 of validate_extracted_params (graph.py:170-178): the first number of the query wins. */
  method ValidateLimit(p: Dict, userQuery: string) returns (q: Dict)
    ensures q == LimitStep(p, userQuery)
    ensures Lookup(q, "limit") == Some(ResolvedLimit(p, userQuery))
    ensures forall k :: k != "limit" ==> Lookup(q, k) == Lookup(p, k)
    ensures DistinctKeys(p) ==> DistinctKeys(q)
  {
    q := p;
    var number := FirstNumber(userQuery);
    if number.Some? {
      q := Put(q, "limit", JInt(number.value));
    } else if !Has(q, "limit") || !IsIntLike(Get(q, "limit")) || IntValue(Get(q, "limit")) <= 0 {
      q := Put(q, "limit", JInt(DefaultLimit));
    }
  }

  /** The loop of graph.py:192-197 over the keyword table. */
  method CollectMentionedFields(lower: string) returns (mentioned: seq<string>)
    ensures mentioned == MentionedFields(lower)
  {
    mentioned := [];
    var t := 0;
    while t < |FieldKeywords|
      invariant 0 <= t <= |FieldKeywords|
      invariant mentioned == MentionedAmong(lower, t)
    {
      if MentionsAny(lower, FieldKeywords[t].1) {
        mentioned := mentioned + [FieldKeywords[t].0];
      }
      t := t + 1;
    }
  }

  /** Step 2 (graph.py:180-224): the field list, from the query's keywords or the guess. */
  method ValidateFields(p: Dict, lower: string) returns (q: Dict)
    ensures q == FieldsStep(p, lower)
    ensures Lookup(q, "fields") == Some(StrArray(ResolvedFields(p, lower)))
    ensures forall k :: k != "fields" ==> Lookup(q, k) == Lookup(p, k)
    ensures DistinctKeys(p) ==> DistinctKeys(q)
  {
    var mentioned := CollectMentionedFields(lower);
    var restricted := HasRestrictionMarker(lower);
    if mentioned != [] && restricted {
      q := Put(p, "fields", StrArray(mentioned));
    } else if mentioned == [] {
      q := Put(p, "fields", StrArray(Vocabulary));
    } else if !Has(p, "fields") || !Get(p, "fields").JArray? {
      q := Put(p, "fields", StrArray(Vocabulary));
    } else {
      var kept := KeepVocabulary(Get(p, "fields").items);
      if kept == [] {
        kept := Vocabulary;
      }
      q := Put(p, "fields", StrArray(kept));
    }
  }

  /** Step 3 (graph.py:226-228): filters that are not a dict become {}. */
  method ValidateFilters(p: Dict) returns (q: Dict)
    ensures q == FiltersStep(p)
    ensures Lookup(q, "filters") == Some(ResolvedFilters(p))
    ensures forall k :: k != "filters" ==> Lookup(q, k) == Lookup(p, k)
    ensures DistinctKeys(p) ==> DistinctKeys(q)
  {
    q := p;
    if !Has(q, "filters") || !Get(q, "filters").JObject? {
      q := Put(q, "filters", JObject([]));
    }
  }

  /** Step 4 (graph.py:230-232): a missing description is synthesised from the limit and the fields. */
  method ValidateDescription(p: Dict) returns (q: Dict)
    requires Has(p, "limit") && IsIntLike(Get(p, "limit"))
    requires Has(p, "fields") && IsStrArray(Get(p, "fields"))
    ensures q == DescriptionStep(p)
    ensures Has(p, "description") ==> Lookup(q, "description") == Lookup(p, "description")
    ensures !Has(p, "description") ==>
              Lookup(q, "description") == Some(JStr(DescriptionText(Get(p, "limit"), StrItems(Get(p, "fields")))))
    ensures forall k :: k != "description" ==> Lookup(q, k) == Lookup(p, k)
    ensures DistinctKeys(p) ==> DistinctKeys(q)
  {
    q := p;
    if !Has(q, "description") {
      q := Put(q, "description", JStr(DescriptionText(Get(q, "limit"), StrItems(Get(q, "fields")))));
    }
  }

  /**
   * validate_extracted_params(params, user_query): the four steps in order,
   * each rewriting its key of the dict in place.
   */
  method ValidateExtractedParams(params: Dict, userQuery: string) returns (validated: Dict)
    ensures validated == Validated(params, userQuery)
  {
    var lower := Lower(userQuery);
    var p1 := ValidateLimit(params, userQuery);
    var p2 := ValidateFields(p1, lower);
    var p3 := ValidateFilters(p2);
    validated := ValidateDescription(p3);
  }

  /** A request for "0 posts" gets the limit 0, whatever the guess said: the limit is not forced above 0. */
  lemma ZeroPostsLimit(guess: Dict)
    ensures ResolvedLimit(guess, "récupère 0 posts") == JInt(0)
  {
    var q := "récupère 0 posts";
    assert IsNumberToken(q, 9, 10);
    assert forall i, j :: IsNumberToken(q, i, j) ==> i == 9 && j == 10 by {
      forall i, j | IsNumberToken(q, i, j) ensures i == 9 && j == 10 {
        assert IsDigit(q[i]);
        assert j - 1 >= i && IsDigit(q[j - 1]);
      }
    }
    assert q[9..10] == "0";
  }

  /** "ajuster" passes the restriction test through its substring "juste". */
  lemma RestrictionIsSubstringTest()
    ensures HasRestrictionMarker("ajuster")
  {
    assert OccursAt("ajuster", "juste", 1);
    assert Contains("ajuster", RestrictionMarkers[3]);
  }
}
