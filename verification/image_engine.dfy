/**
 * The foreign image library that ImageCache drives, reduced to what ImageCache
 * observes of it. Which methods an image has, what a method call returns, how an
 * image is cast to a string and how one is built from bytes are all unknown to
 * the cache, so they are carried as function values of an `Engine` record and
 * never interpreted.
 */
module ImageEngine {

  import opened Wrappers

  /**
   * An argument value passed to a recorded call: `null`, a boolean, an integer,
   * a string, or a list of such values.
   */
  datatype Value =
    | Null
    | Bool(b: bool)
    | Int(i: int)
    | Str(s: string)
    | List(items: seq<Value>)

  /** One recorded call: `array('name' => $name, 'arguments' => $arguments)`. */
  datatype Call = Call(name: string, arguments: seq<Value>)

  /**
   * The image library as seen through an image state of type I.
   * - blank:  the image made by `new CachedImage` (no data)
   * - has:    `method_exists($image, $name)`
   * - apply:  the image returned by calling `$name` with the arguments; the flag
   *           says whether it is dispatched statically
   * - encode: `(string) $image`
   * - decode: `new CachedImage($data)`
   */
  datatype Engine<!I> = Engine(
    blank: I,
    has: (I, string) -> bool,
    apply: (I, string, seq<Value>, bool) -> I,
    encode: I -> string,
    decode: string -> I)

  /** A CachedImage: an image plus its `cachekey` property, `null` until stamped. */
  datatype CachedImage<I> = CachedImage(state: I, cachekey: Option<string>)
}
