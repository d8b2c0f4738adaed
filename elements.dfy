/** What a step leaves behind for the step after it (`temp_result`): nothing,
    one element handle, or a list of element handles; and the two ways the
    interpreter normalises it before use. */
module Elements {
  import opened Wrappers

  /** An opaque reference to an element of the current page. */
  datatype Handle = Handle(id: nat)

  datatype StepResult = NoResult | One(element: Handle) | Many(elements: seq<Handle>)

  /** `__get_first_elem_or_none`: the element a single-element step acts on. */
  function FirstElemOrNone(r: StepResult): Option<Handle> {
    match r
    case NoResult => None
    case One(h) => Some(h)
    case Many(hs) => if |hs| > 0 then Some(hs[0]) else None
  }

  /** `__get_elem_list`: the elements a per-element step iterates over. */
  function ElemList(r: StepResult): seq<Handle> {
    match r
    case NoResult => []
    case One(h) => [h]
    case Many(hs) => hs
  }

  /** The two normalisations agree: the first element is the head of the
      element list, and there is none exactly when the list is empty. An
      absent result gives the empty list, a list is kept as it is (empty or
      not), and a single element becomes a one-element list. */
  lemma FirstElemIsHeadOfElemList(r: StepResult)
    ensures FirstElemOrNone(r) == if ElemList(r) == [] then None else Some(ElemList(r)[0])
    ensures r.NoResult? ==> ElemList(r) == []
    ensures r.Many? ==> ElemList(r) == r.elements
    ensures r.One? ==> ElemList(r) == [r.element]
  {
  }
}
