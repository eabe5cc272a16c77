/**
 * The badge colour tables: category lookup by lower-cased name with a gray
 * default for the empty name and no fallback for an unknown one (an object
 * lookup, so two inherited keys answer too), and the
 * priority and necessity tables that fall back to their first entry.
 */
module CategoryColors {

  const Gray := "bg-gray-100 dark:bg-gray-800/50 text-gray-800 dark:text-gray-300"
  const Orange := "bg-orange-100 dark:bg-orange-900/30 text-orange-800 dark:text-orange-300"
  const Blue := "bg-blue-100 dark:bg-blue-900/30 text-blue-800 dark:text-blue-300"
  const Purple := "bg-purple-100 dark:bg-purple-900/30 text-purple-800 dark:text-purple-300"
  const Red := "bg-red-100 dark:bg-red-900/30 text-red-800 dark:text-red-300"
  const Pink := "bg-pink-100 dark:bg-pink-900/30 text-pink-800 dark:text-pink-300"
  const Green := "bg-green-100 dark:bg-green-900/30 text-green-800 dark:text-green-300"
  const Indigo := "bg-indigo-100 dark:bg-indigo-900/30 text-indigo-800 dark:text-indigo-300"
  const Cyan := "bg-cyan-100 dark:bg-cyan-900/30 text-cyan-800 dark:text-cyan-300"
  const Yellow := "bg-yellow-100 dark:bg-yellow-900/30 text-yellow-800 dark:text-yellow-300"
  const Teal := "bg-teal-100 dark:bg-teal-900/30 text-teal-800 dark:text-teal-300"

  /** Expense categories, priority words and "recurring", keyed by lower-case name. */
  const CategoryTable: map<string, string> := map[
    "food" := Orange, "transport" := Blue, "entertainment" := Purple, "bills" := Red,
    "shopping" := Pink, "health" := Green, "education" := Indigo, "travel" := Cyan,
    "other" := Gray, "high" := Red, "medium" := Yellow, "low" := Green, "recurring" := Teal]

  const PriorityTable: map<int, string> := map[1 := Gray, 2 := Blue, 3 := Red]

  const NecessityTable: map<int, string> := map[1 := Gray, 2 := Blue, 3 := Yellow, 4 := Orange, 5 := Red]

  /** String.prototype.toLowerCase on the ASCII letters. */
  function LowerChar(c: char): (r: char)
    ensures 'A' <= c <= 'Z' ==> r as int == c as int + 32
    ensures !('A' <= c <= 'Z') ==> r == c
  {
    if 'A' <= c <= 'Z' then (c as int + 32) as char else c
  }

  function ToLower(s: string): (r: string)
    ensures |r| == |s|
    ensures forall i :: 0 <= i < |s| ==> r[i] == LowerChar(s[i])
  {
    if s == [] then [] else [LowerChar(s[0])] + ToLower(s[1..])
  }

  lemma {:induction false} ToLowerIdempotent(s: string)
    ensures ToLower(ToLower(s)) == ToLower(s)
  {
    if s != [] {
      ToLowerIdempotent(s[1..]);
      assert ToLower(s)[1..] == ToLower(s[1..]);
    }
  }

  /**
   * The own keys of `Object.prototype` that are entirely lower case: indexing
   * the colour object with one of these reaches an inherited value, not `undefined`.
   * Every other inherited key has an upper-case letter, which a lower-cased name never has.
   */
  const PrototypeKeys: set<string> := {"constructor", "__proto__"}

  /** What indexing the colour object yields: an own colour, an inherited non-string value, or undefined. */
  datatype Badge = Colour(classes: string) | Inherited(key: string) | Undefined

  /** getCategoryColor. */
  function GetCategoryColor(category: string): (r: Badge)
    ensures category == "" ==> r == Colour(Gray)
    ensures category != "" && ToLower(category) in CategoryTable ==> r == Colour(CategoryTable[ToLower(category)])
    ensures r.Colour? <==> category == "" || ToLower(category) in CategoryTable
    ensures r.Inherited? <==> category != "" && ToLower(category) in PrototypeKeys
  {
    if category == "" then Colour(Gray)
    else if ToLower(category) in CategoryTable then Colour(CategoryTable[ToLower(category)])
    else if ToLower(category) in PrototypeKeys then Inherited(ToLower(category))
    else Undefined
  }

  /** The lookup ignores the case of ASCII letters. */
  lemma CategoryCaseInsensitive(category: string)
    ensures GetCategoryColor(ToLower(category)) == GetCategoryColor(category)
  {
    ToLowerIdempotent(category);
  }

  /** The other keys of `Object.prototype` all hold an upper-case letter. */
  const MixedCasePrototypeKeys: set<string> := {
    "toString", "toLocaleString", "valueOf", "hasOwnProperty", "isPrototypeOf",
    "propertyIsEnumerable", "__defineGetter__", "__defineSetter__", "__lookupGetter__", "__lookupSetter__"}

  /** No name lower-cases to one of the mixed-case prototype keys, so only PrototypeKeys can be reached. */
  lemma MixedCaseKeysUnreachable(category: string)
    ensures ToLower(category) !in MixedCasePrototypeKeys
  {
    assert UpperAt("toString", 2) && UpperAt("toLocaleString", 2) && UpperAt("valueOf", 5);
    assert UpperAt("hasOwnProperty", 3) && UpperAt("isPrototypeOf", 2) && UpperAt("propertyIsEnumerable", 8);
    assert UpperAt("__defineGetter__", 8) && UpperAt("__defineSetter__", 8);
    assert UpperAt("__lookupGetter__", 8) && UpperAt("__lookupSetter__", 8);
  }

  predicate UpperAt(k: string, i: int)
  {
    0 <= i < |k| && 'A' <= k[i] <= 'Z'
  }

  /**
   * A non-empty name that is neither in the table nor a lower-case prototype key
   * gets `undefined`: there is no fallback colour. "Gift" is one such name.
   */
  lemma UnknownCategoryUndefined(category: string)
    requires category != ""
    requires ToLower(category) !in CategoryTable && ToLower(category) !in PrototypeKeys
    ensures GetCategoryColor(category) == Undefined
    ensures GetCategoryColor("Gift") == Undefined
  {
    assert ToLower("Gift") == "gift";
    assert forall k :: k in CategoryTable ==> k[0] != 'g';
    assert forall k :: k in PrototypeKeys ==> k[0] != 'g';
  }

  /** "Constructor" lower-cases to an inherited key and reaches `Object`, not a colour. */
  lemma ConstructorIsInherited()
    ensures GetCategoryColor("Constructor") == Inherited("constructor")
  {
    assert ToLower("Constructor") == "constructor";
  }

  /** Upper-case names find their lower-case entry. */
  lemma UpperCaseCategoryFound()
    ensures GetCategoryColor("FOOD") == Colour(Orange)
  {
    assert ToLower("FOOD") == "food";
  }

  /** getPriorityColor: an unknown priority gets the entry of priority 1. */
  function GetPriorityColor(priority: int): (r: string)
    ensures priority in PriorityTable ==> r == PriorityTable[priority]
    ensures priority !in PriorityTable ==> r == PriorityTable[1]
  {
    if priority in PriorityTable then PriorityTable[priority] else PriorityTable[1]
  }

  /** getNecessityColor: an unknown necessity gets the entry of necessity 1. */
  function GetNecessityColor(necessity: int): (r: string)
    ensures necessity in NecessityTable ==> r == NecessityTable[necessity]
    ensures necessity !in NecessityTable ==> r == NecessityTable[1]
  {
    if necessity in NecessityTable then NecessityTable[necessity] else NecessityTable[1]
  }

  /** Priorities 1..3 are told apart; anything else looks like priority 1. */
  lemma PriorityColorsDistinct(p: int, q: int)
    requires 1 <= p <= 3 && 1 <= q <= 3 && p != q
    ensures GetPriorityColor(p) != GetPriorityColor(q)
    ensures forall x :: x < 1 || x > 3 ==> GetPriorityColor(x) == GetPriorityColor(1)
  {
  }

  /** Necessities 1..5 are told apart; anything else looks like necessity 1. */
  lemma NecessityColorsDistinct(p: int, q: int)
    requires 1 <= p <= 5 && 1 <= q <= 5 && p != q
    ensures GetNecessityColor(p) != GetNecessityColor(q)
    ensures forall x :: x < 1 || x > 5 ==> GetNecessityColor(x) == GetNecessityColor(1)
  {
  }
}
