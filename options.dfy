/** The option hash of a Gherkify object: caller options merged over the defaults. */
module Options {
  import opened Wrappers

  /**
   * An option value. The model restricts option values to booleans and strings;
   * a caller's nil, Pathname or other object has no counterpart here.
   */
  datatype Value = Flag(on: bool) | Text(text: string)

  /** Option names are the symbols of the Ruby hash, written without the colon. */
  type OptionMap = map<string, Value>

  /** The four defaults of the constructor. */
  const Defaults: OptionMap := map[
    "show_notes" := Flag(false),
    "output_dir" := Text("."),
    "debug" := Flag(false),
    "add_features" := Flag(false)
  ]

  /** `defaults.merge(options)`: the caller's entries win, every other default stays. */
  function WithDefaults(given: OptionMap): (r: OptionMap)
    ensures r.Keys == Defaults.Keys + given.Keys
    ensures forall k :: k in given ==> k in r && r[k] == given[k]
    ensures forall k :: k in Defaults && k !in given ==> k in r && r[k] == Defaults[k]
  {
    Defaults + given
  }

  /** Ruby truthiness of `options[name]`: a missing key reads as nil, and nil and false are falsy. */
  predicate Truthy(opts: OptionMap, name: string)
    ensures Truthy(opts, name) ==> name in opts
    ensures name in opts && opts[name].Text? ==> Truthy(opts, name)
    ensures name in opts && opts[name].Flag? ==> (Truthy(opts, name) <==> opts[name].on)
  {
    name in opts && opts[name] != Flag(false)
  }

  /**
   * `options[:image_path]` as a directory usable by File.join and Dir.chdir:
   * only a string is; nil (the key was never given) or a boolean makes them raise.
   */
  function ImagePath(opts: OptionMap): (r: Option<string>)
    ensures r.Some? <==> "image_path" in opts && opts["image_path"].Text?
    ensures r.Some? ==> opts["image_path"] == Text(r.value)
  {
    if "image_path" in opts && opts["image_path"].Text? then Some(opts["image_path"].text) else None
  }

  /** Unless the caller sets add_features, the raw-source appendix is off. */
  lemma AddFeaturesOffByDefault(given: OptionMap)
    requires "add_features" !in given
    ensures !Truthy(WithDefaults(given), "add_features")
  {
  }

  /** Defaults never supply an image path: it comes from the caller or not at all. */
  lemma ImagePathOnlyFromCaller(given: OptionMap)
    ensures ImagePath(WithDefaults(given)) == ImagePath(given)
  {
  }
}
