/**
 * The timeline's category badges: each category name has an icon and a
 * colour, and a name with no entry of its own is shown as "unknown".
 *
 * The lookup is a property read on a plain JavaScript object, so it also
 * finds the members every object inherits from `Object.prototype`. The
 * model keeps both the lookup as written and the lookup as intended.
 */
module Categories {

  datatype CategoryConfig = CategoryConfig(icon: string, color: string)

  const Generic := CategoryConfig("\U{1F4DD}", "#6366f1")
  const Unknown := CategoryConfig("\U{2753}", "#6b7280")

  /** The category map's own entries. */
  predicate IsCategory(name: string) {
    name == "generic" || name == "unknown"
  }

  function OwnEntry(name: string): CategoryConfig
    requires IsCategory(name)
  {
    if name == "generic" then Generic else Unknown
  }

  /** The names a plain object inherits from `Object.prototype`; every one of them is a truthy value. */
  const PrototypeMembers: set<string> := {
    "constructor", "hasOwnProperty", "isPrototypeOf", "propertyIsEnumerable",
    "toLocaleString", "toString", "valueOf", "__proto__",
    "__defineGetter__", "__defineSetter__", "__lookupGetter__", "__lookupSetter__"
  }

  /** What a property read on the category map yields. */
  datatype PropertyValue = Config(config: CategoryConfig) | Inherited(member: string) | Undefined

  /** `categoryMap[name]`: own entries first, then the prototype chain. */
  function ReadProperty(name: string): (v: PropertyValue)
    ensures v.Config? <==> IsCategory(name)
    ensures v.Inherited? <==> name in PrototypeMembers
  {
    if IsCategory(name) then Config(OwnEntry(name))
    else if name in PrototypeMembers then Inherited(name)
    else Undefined
  }

  /** JavaScript truthiness of the values a read can yield: configs and inherited members are objects. */
  predicate Truthy(v: PropertyValue) {
    !v.Undefined?
  }

  /** `getCategoryConfig` as written: `categoryMap[name] || categoryMap.unknown`. */
  function GetCategoryConfigAsWritten(name: string): (r: PropertyValue)
    ensures !r.Undefined?
    ensures r.Inherited? <==> name in PrototypeMembers
    ensures r.Inherited? ==> r.member == name
    ensures r.Config? ==> (r.config == Generic <==> name == "generic")
  {
    var v := ReadProperty(name);
    if Truthy(v) then v else Config(Unknown)
  }

  /** A category named after an inherited member gets that member, which is not a config at all. */
  lemma AsWrittenReturnsInheritedMember()
    ensures !GetCategoryConfigAsWritten("toString").Config?
    ensures GetCategoryConfigAsWritten("constructor") == Inherited("constructor")
  {
  }

  /** `getCategoryConfig` as intended: only the map's own entries count. */
  function GetCategoryConfig(name: string): (c: CategoryConfig)
    ensures name == "generic" ==> c == Generic
    ensures name != "generic" ==> c == Unknown
  {
    if IsCategory(name) then OwnEntry(name) else Unknown
  }

  /** Every answer is one of the two configs, and only "generic" gets the generic one. */
  lemma GetCategoryConfigIsOwnEntryOrFallback(name: string)
    ensures GetCategoryConfig(name) == Generic <==> name == "generic"
    ensures IsCategory(name) ==> GetCategoryConfig(name) == OwnEntry(name)
  {
  }

  /** For every name outside `Object.prototype` the intended lookup agrees with the code as written. */
  lemma AsWrittenAgreesElsewhere(name: string)
    ensures GetCategoryConfigAsWritten(name) == Config(GetCategoryConfig(name)) <==> name !in PrototypeMembers
  {
  }
}
