/** src/utils/helpers.js: the display name of an entry in the active language. */
module Helpers {
  import opened JsValues

  /**
   * `getEntryName(entry, lang)`: the name in the active language, or the
   * other one when that is empty.
   */
  function GetEntryName(nameEn: string, nameAr: string, lang: string): (r: string)
    ensures r == nameEn || r == nameAr
    ensures lang == "ar" ==> r == (if nameAr != "" then nameAr else nameEn)
    ensures lang != "ar" ==> r == (if nameEn != "" then nameEn else nameAr)
    ensures r == "" <==> nameEn == "" && nameAr == ""
  {
    if lang == "ar" then (if nameAr != "" then nameAr else nameEn)
    else (if nameEn != "" then nameEn else nameAr)
  }

  /**
   * `getEntryName` on names of any JavaScript value, as the diary stores
   * them: `||` keeps the preferred name when it is truthy.
   */
  function EntryName(nameEn: Value, nameAr: Value, lang: string): (r: Value)
    ensures r == nameEn || r == nameAr
    ensures lang == "ar" ==> (Truthy(nameAr) ==> r == nameAr) && (!Truthy(nameAr) ==> r == nameEn)
    ensures lang != "ar" ==> (Truthy(nameEn) ==> r == nameEn) && (!Truthy(nameEn) ==> r == nameAr)
    ensures !Truthy(r) <==> !Truthy(nameEn) && !Truthy(nameAr)
  {
    if lang == "ar" then Or(nameAr, nameEn) else Or(nameEn, nameAr)
  }

  /** On string names the two agree: `EntryName` is `GetEntryName` lifted to values. */
  lemma EntryNameOfStrings(nameEn: string, nameAr: string, lang: string)
    ensures EntryName(Str(nameEn), Str(nameAr), lang) == Str(GetEntryName(nameEn, nameAr, lang))
  {
  }

  /** A name stored in one language only is shown in every language. */
  lemma SingleNameShownEverywhere(name: string, lang: string)
    ensures GetEntryName(name, "", lang) == name
    ensures GetEntryName("", name, lang) == name
  {
  }
}
