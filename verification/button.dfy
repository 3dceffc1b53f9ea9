/** The class list of the shared button component. */
module Button {
  import opened Wrappers
  import opened Text

  datatype Variant = Default | Destructive | Outline | Primary | Secondary | Ghost | Link
  datatype Size = DefaultSize | Small | Large | IconSize

  /** Primary and default share the brand class; destructive and outline have their own; the rest, or none, get "". */
  function VariantClass(v: Option<Variant>): (r: string)
    ensures v == Some(Primary) || v == Some(Default) <==> r == "button--primary"
    ensures v == Some(Destructive) <==> r == "button--destructive"
    ensures v == Some(Outline) <==> r == "button--outline"
    ensures r == "" <==> v.None? || v.value in {Secondary, Ghost, Link}
  {
    match v
    case Some(Primary) => "button--primary"
    case Some(Default) => "button--primary"
    case Some(Destructive) => "button--destructive"
    case Some(Outline) => "button--outline"
    case _ => ""
  }

  /** Small and large have a class; the default and icon sizes, or none, get "". */
  function SizeClass(s: Option<Size>): (r: string)
    ensures s == Some(Small) <==> r == "button--small"
    ensures s == Some(Large) <==> r == "button--large"
    ensures r == "" <==> s.None? || s.value in {DefaultSize, IconSize}
  {
    match s
    case Some(Small) => "button--small"
    case Some(Large) => "button--large"
    case _ => ""
  }

  /** The rendered `className`: base, variant and size classes and the caller's classes, space-separated. */
  function ClassName(variant: Option<Variant>, size: Option<Size>, className: Option<string>): (r: string)
    ensures StartsWith(r, "crancy-btn ")
    ensures |r| == 13 + |VariantClass(variant)| + |SizeClass(size)| + |OrElse(className, "")|
  {
    "crancy-btn " + VariantClass(variant) + " " + SizeClass(size) + " " + OrElse(className, "")
  }

  /** The part of a class list after the base class and its space. */
  function AfterBase(r: string): string
    requires StartsWith(r, "crancy-btn ")
  {
    r[|"crancy-btn "|..]
  }

  /**
   * The class list determines the variant class, the size class and the
   * caller's classes: the variant class is the text up to the next space,
   * the size class the text up to the one after.
   */
  lemma ClassNameDecodes(variant: Option<Variant>, size: Option<Size>, className: Option<string>)
    ensures var rest := AfterBase(ClassName(variant, size, className));
      var v := VariantClass(variant);
      var s := SizeClass(size);
      rest[..|v|] == v && rest[|v|] == ' ' &&
      rest[|v| + 1..|v| + 1 + |s|] == s && rest[|v| + 1 + |s|] == ' ' &&
      rest[|v| + 2 + |s|..] == OrElse(className, "")
  {
    var r := ClassName(variant, size, className);
    var v := VariantClass(variant);
    var s := SizeClass(size);
    var c := OrElse(className, "");
    assert AfterBase(r) == v + " " + s + " " + c;
  }

  /** Leaving the variant out renders no brand class, unlike asking for the default variant. */
  lemma OmittedVariantIsNotDefault(size: Option<Size>, className: Option<string>)
    ensures ClassName(None, size, className) != ClassName(Some(Default), size, className)
    ensures ClassName(Some(Primary), size, className) == ClassName(Some(Default), size, className)
  {
    ClassNameDecodes(None, size, className);
    ClassNameDecodes(Some(Default), size, className);
  }

  /** A bare button still carries the three separating spaces. */
  lemma BareButton()
    ensures ClassName(None, None, None) == "crancy-btn   "
  {
  }
}
