/** What the build helpers read from a recipe: its settings, and path joining. */
module ConanFiles {
  import opened Wrappers

  /** A recipe's settings: a name missing from the map is not declared by the recipe,
      one mapped to `None` is declared but has no value. */
  type Settings = map<string, Option<string>>

  /** `settings.get_safe(name)` */
  function GetSafe(settings: Settings, name: string): (r: Option<string>)
    ensures name !in settings ==> r == None
  {
    if name in settings then settings[name] else None
  }

  /** `str(value)` of a value that may be `None`. */
  function Show(value: Option<string>): (r: string)
    ensures value.Some? ==> r == value.value
  {
    if value.Some? then value.value else "None"
  }

  /** `os.path.join(a, b)` with a fixed separator. */
  function PathJoin(a: string, b: string): (r: string)
    ensures |r| == |a| + 1 + |b|
  {
    a + "/" + b
  }
}
