/**
 * Element lookups of the page client. A lookup that must find exactly one
 * element is a tri-state (none, one, several) collapsed to an optional value,
 * so that several matches are never silently read as "the first one".
 */
module Lookups {
  import opened Wrappers

  datatype Lookup<T> = Zero | One(element: T) | Many

  /** A handle on a page element. */
  datatype Element = Element(id: nat)

  function Classify<T>(elements: seq<T>): (r: Lookup<T>)
    ensures r.Zero? <==> |elements| == 0
    ensures r.Many? <==> |elements| > 1
    ensures r.One? ==> |elements| == 1 && r.element == elements[0]
  {
    if |elements| == 0 then Zero else if |elements| == 1 then One(elements[0]) else Many
  }

  /** Ambiguity is absence. */
  function Collapse<T>(l: Lookup<T>): (r: Option<T>)
    ensures r.Some? <==> l.One?
    ensures l.One? ==> r.value == l.element
  {
    match l
    case One(e) => Some(e)
    case _ => None
  }

  /**
   * `find_one_in_page`, `find_element_in_element` and the sign-in
   * `find_element`: the matched element when exactly one element matches.
   */
  function FindOne<T>(elements: seq<T>): (r: Option<T>)
    ensures r.Some? <==> |elements| == 1
    ensures r.Some? ==> r.value == elements[0]
  {
    Collapse(Classify(elements))
  }

  /** `find_many_in_page`: every match, or nothing when there is none. */
  function FindMany<T>(elements: seq<T>): (r: Option<seq<T>>)
    ensures r.Some? <==> |elements| > 0
    ensures r.Some? ==> r.value == elements
  {
    if |elements| > 0 then Some(elements) else None
  }

  /**
   * The two lookups agree: the single-element lookup finds an element
   * exactly when the multi-element lookup yields a one-element list, and
   * then it is that element; several matches satisfy the second and not
   * the first.
   */
  lemma OneAmongMany<T>(elements: seq<T>)
    ensures FindOne(elements).Some? <==> FindMany(elements).Some? && |FindMany(elements).value| == 1
    ensures FindOne(elements).Some? ==> FindMany(elements) == Some([FindOne(elements).value])
    ensures |elements| > 1 ==> FindOne(elements).None? && FindMany(elements).Some?
  {
    if |elements| == 1 {
      assert elements == [elements[0]];
    }
  }
}
