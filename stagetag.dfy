/**
 * The stage pill (src/features/dashboard/components/StageTag.tsx): a stage
 * string is normalised to a key (white space removed, lower-cased), the key
 * chooses a background and text colour from a fixed table, unknown keys get
 * neutral gray, and the pill shows the stage exactly as given.
 */
module StageTag {
  import opened Wrappers
  import opened JsStrings

  datatype StageColor = StageColor(bg: string, text: string)

  const STAGE_COLORS: map<string, StageColor> := map[
    "new" := StageColor("bg-blue-100", "text-blue-800"),
    "pending" := StageColor("bg-yellow-100", "text-yellow-800"),
    "inprogress" := StageColor("bg-indigo-100", "text-indigo-800"),
    "completed" := StageColor("bg-green-100", "text-green-800"),
    "escalated" := StageColor("bg-red-100", "text-red-800")
  ]

  const FALLBACK_COLOR := StageColor("bg-gray-100", "text-gray-800")

  /* ---------------------------------------------------------------- */
  /*                          The stage key                           */
  /* ---------------------------------------------------------------- */

  predicate IsStageKey(key: string) {
    forall k :: 0 <= k < |key| ==> !IsWhitespace(key[k]) && !IsUpper(key[k])
  }

  /** The key: every white-space character removed, then lower-cased. */
  function StageKey(stage: string): (key: string)
    ensures IsStageKey(key)
    ensures |key| <= |stage|
  {
    var squeezed := RemoveWhitespace(stage);
    var key := ToLowerCase(squeezed);
    assert forall k :: 0 <= k < |key| ==> !IsWhitespace(key[k]) by {
      forall k | 0 <= k < |key|
        ensures !IsWhitespace(key[k])
      {
        assert !IsWhitespace(squeezed[k]);
      }
    }
    key
  }

  /** A key is its own key. */
  lemma {:induction false} StageKeyOfKey(key: string)
    requires IsStageKey(key)
    ensures StageKey(key) == key
  {
    if key != [] {
      assert IsStageKey(key[1..]);
      StageKeyOfKey(key[1..]);
      assert RemoveWhitespace(key) == [key[0]] + RemoveWhitespace(key[1..]);
    }
  }

  /** Normalising twice is normalising once. */
  lemma StageKeyIdempotent(stage: string)
    ensures StageKey(StageKey(stage)) == StageKey(stage)
  {
    StageKeyOfKey(StageKey(stage));
  }

  /** White space anywhere in the stage does not change its key. */
  lemma {:induction false} StageKeyIgnoresWhitespace(a: string, w: char, b: string)
    requires IsWhitespace(w)
    ensures StageKey(a + [w] + b) == StageKey(a + b)
  {
    RemoveWhitespaceAppend(a, [w] + b);
    RemoveWhitespaceAppend(a, b);
    assert a + [w] + b == a + ([w] + b);
    assert ([w] + b)[1..] == b;
  }

  /** Letter case does not change the key. */
  lemma StageKeyIgnoresCase(a: string, c: char, b: string)
    requires IsUpper(c)
    ensures StageKey(a + [c] + b) == StageKey(a + [LowerChar(c)] + b)
  {
    var l := LowerChar(c);
    var x, y := RemoveWhitespace(a), RemoveWhitespace(b);
    SqueezeAround(a, c, b);
    SqueezeAround(a, l, b);
    ToLowerCaseAppend(x + [c], y);
    ToLowerCaseAppend(x, [c]);
    ToLowerCaseAppend(x + [l], y);
    ToLowerCaseAppend(x, [l]);
  }

  /** Removing white space around a character that is not white space. */
  lemma SqueezeAround(a: string, c: char, b: string)
    requires !IsWhitespace(c)
    ensures RemoveWhitespace(a + [c] + b) == RemoveWhitespace(a) + [c] + RemoveWhitespace(b)
  {
    assert a + [c] + b == a + ([c] + b);
    RemoveWhitespaceAppend(a, [c] + b);
    assert ([c] + b)[1..] == b;
  }

  /* ---------------------------------------------------------------- */
  /*                          The colour                              */
  /* ---------------------------------------------------------------- */

  /** The table's colour for the stage's key, gray for a key the table does
      not list. */
  function ColorFor(stage: string): (color: StageColor)
    ensures StageKey(stage) in STAGE_COLORS ==> color == STAGE_COLORS[StageKey(stage)]
    ensures StageKey(stage) !in STAGE_COLORS ==> color == FALLBACK_COLOR
  {
    var key := StageKey(stage);
    if key in STAGE_COLORS then STAGE_COLORS[key] else FALLBACK_COLOR
  }

  /** Only gray is a fallback: every listed stage has a colour of its own. */
  lemma FallbackOnlyForUnknown(stage: string)
    ensures ColorFor(stage) == FALLBACK_COLOR <==> StageKey(stage) !in STAGE_COLORS
  {
  }

  lemma StagesWithTheSameKey(s1: string, s2: string)
    requires StageKey(s1) == StageKey(s2)
    ensures ColorFor(s1) == ColorFor(s2)
  {
  }

  /* ---------------------------------------------------------------- */
  /*              The table lookup as the component writes it         */
  /* ---------------------------------------------------------------- */

  /** The properties every plain JavaScript object inherits from
      `Object.prototype`. */
  const OBJECT_PROTOTYPE_MEMBERS: set<string> := {
    "constructor", "__defineGetter__", "__defineSetter__", "hasOwnProperty",
    "__lookupGetter__", "__lookupSetter__", "isPrototypeOf",
    "propertyIsEnumerable", "toString", "valueOf", "__proto__", "toLocaleString"
  }

  /** What indexing the colour table, a plain object, with a key yields: an
      own entry, an inherited member (never `undefined` or `null`), or
      `undefined`. */
  datatype Lookup = Own(color: StageColor) | Inherited | Missing

  function LookupAsWritten(key: string): (found: Lookup)
    ensures found.Own? <==> key in STAGE_COLORS
    ensures found.Inherited? <==> key !in STAGE_COLORS && key in OBJECT_PROTOTYPE_MEMBERS
    ensures found.Own? ==> found.color == STAGE_COLORS[key]
  {
    if key in STAGE_COLORS then Own(STAGE_COLORS[key])
    else if key in OBJECT_PROTOTYPE_MEMBERS then Inherited
    else Missing
  }

  /** The colour classes the component computes: the `??` fallback replaces
      only `undefined`, so an inherited member is taken as the colour and,
      having neither `bg` nor `text`, adds no class at all. */
  function ColorClassesAsWritten(stage: string): (classes: seq<string>)
    ensures LookupAsWritten(StageKey(stage)).Inherited? <==> classes == []
    ensures StageKey(stage) in STAGE_COLORS
            ==> classes == [STAGE_COLORS[StageKey(stage)].bg, STAGE_COLORS[StageKey(stage)].text]
    ensures LookupAsWritten(StageKey(stage)).Missing? ==> classes == ["bg-gray-100", "text-gray-800"]
  {
    match LookupAsWritten(StageKey(stage))
    case Own(color) => [color.bg, color.text]
    case Missing => [FALLBACK_COLOR.bg, FALLBACK_COLOR.text]
    case Inherited => []
  }

  /** The colour classes as documented: every unknown stage is gray. */
  function ColorClasses(stage: string): (classes: seq<string>)
    ensures |classes| == 2
    ensures StageKey(stage) in STAGE_COLORS
            ==> classes == [STAGE_COLORS[StageKey(stage)].bg, STAGE_COLORS[StageKey(stage)].text]
    ensures StageKey(stage) !in STAGE_COLORS ==> classes == ["bg-gray-100", "text-gray-800"]
  {
    [ColorFor(stage).bg, ColorFor(stage).text]
  }

  /** A stage whose key is "constructor" (such as "Constructor" or
      "construct or") gets no colour class at all where gray was meant. */
  lemma ConstructorStageLosesFallback(stage: string)
    requires StageKey(stage) == "constructor"
    ensures ColorClassesAsWritten(stage) == []
    ensures ColorClasses(stage) == ["bg-gray-100", "text-gray-800"]
  {
  }

  /** The stage "constructor" is such a stage. */
  lemma ConstructorIsAKey()
    ensures StageKey("constructor") == "constructor"
  {
    assert IsStageKey("constructor");
    StageKeyOfKey("constructor");
  }

  predicate HasUpper(s: string) {
    exists k :: 0 <= k < |s| && IsUpper(s[k])
  }

  /** Of the inherited member names, only "constructor" and "__proto__"
      are written without an upper-case letter. */
  lemma InheritedMemberNames()
    ensures forall m :: m in OBJECT_PROTOTYPE_MEMBERS ==>
              m == "constructor" || m == "__proto__" || HasUpper(m)
  {
    assert IsUpper("__defineGetter__"[2 + 6]);
    assert IsUpper("__defineSetter__"[2 + 6]);
    assert IsUpper("hasOwnProperty"[3]);
    assert IsUpper("__lookupGetter__"[2 + 6]);
    assert IsUpper("__lookupSetter__"[2 + 6]);
    assert IsUpper("isPrototypeOf"[2]);
    assert IsUpper("propertyIsEnumerable"[8]);
    assert IsUpper("toString"[2]);
    assert IsUpper("valueOf"[5]);
    assert IsUpper("toLocaleString"[2]);
  }

  /** The only keys that reach an inherited member are "constructor" and
      "__proto__": every other member name has an upper-case letter, which
      no key has. Everywhere else the component's colours are the
      documented ones. */
  lemma AsWrittenDiffersOnlyOnInheritedKeys(stage: string)
    ensures StageKey(stage) != "constructor" && StageKey(stage) != "__proto__"
            ==> ColorClassesAsWritten(stage) == ColorClasses(stage)
  {
    InheritedMemberNames();
    assert !HasUpper(StageKey(stage));
  }

  /* ---------------------------------------------------------------- */
  /*                            The pill                              */
  /* ---------------------------------------------------------------- */

  const BASE_CLASSES := "inline-flex items-center rounded-full px-2.5 py-0.5 text-xs font-medium"

  /** What the pill renders: its class list and its caption. */
  datatype Pill = Pill(classes: seq<string>, caption: string)

  /** The caller's extra classes: `clsx` drops a missing or empty one. */
  function ExtraClasses(className: Option<string>): seq<string> {
    if className.Some? && className.value != "" then [className.value] else []
  }

  /** The pill for a stage as documented: the base classes, the stage's two
      colour classes (gray for a stage the table does not list), the
      caller's extra classes, and the stage exactly as given as the
      caption. */
  function RenderStageTag(stage: string, className: Option<string>): (pill: Pill)
    ensures pill.caption == stage
    ensures |pill.classes| >= 3 && pill.classes[0] == BASE_CLASSES
    ensures pill.classes[1] == ColorFor(stage).bg && pill.classes[2] == ColorFor(stage).text
  {
    Pill([BASE_CLASSES] + ColorClasses(stage) + ExtraClasses(className), stage)
  }

  /** The pill as the component builds it: for a key naming an inherited
      member it carries no colour class; for every other key it is the
      documented pill. */
  function RenderStageTagAsWritten(stage: string, className: Option<string>): (pill: Pill)
    ensures pill.caption == stage
    ensures |pill.classes| >= 1 && pill.classes[0] == BASE_CLASSES
    ensures StageKey(stage) != "constructor" && StageKey(stage) != "__proto__"
            ==> pill == RenderStageTag(stage, className)
    ensures StageKey(stage) == "constructor" || StageKey(stage) == "__proto__"
            ==> pill.classes == [BASE_CLASSES] + ExtraClasses(className)
  {
    AsWrittenDiffersOnlyOnInheritedKeys(stage);
    Pill([BASE_CLASSES] + ColorClassesAsWritten(stage) + ExtraClasses(className), stage)
  }
}
