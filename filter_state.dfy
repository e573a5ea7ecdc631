/** The filter context: one shared cell holding the current filter record,
    replaced wholesale by `setFilter` and restored by `resetFilters`. */
module FilterState {
  import opened Wrappers
  import opened Types

  /** `{ status: null, priority: null, assigneeId: null, search: '' }`. */
  const DefaultFilter: TaskFilter :=
    EmptyFilter.(status := Null, priority := Null, assigneeId := Null, search := Val(""))

  /** The message `useFilter` throws outside a provider. */
  const OutsideProviderMessage: string := "useFilter doit être utilisé à l'intérieur d'un FilterProvider"

  class FilterProvider {
    var filter: TaskFilter

    /** The provider starts from the default filter. */
    constructor ()
      ensures filter == DefaultFilter
    {
      filter := DefaultFilter;
    }

    /** `setFilter(f)` is the state setter itself: the new filter is `f`,
        so keys missing from `f` are gone rather than merged. */
    method SetFilter(f: TaskFilter)
      modifies this
      ensures filter == f
    {
      filter := f;
    }

    /** `resetFilters` writes the default filter, whatever came before. */
    method ResetFilters()
      modifies this
      ensures filter == DefaultFilter
    {
      filter := DefaultFilter;
    }
  }

  /** Resetting twice leaves the same filter as resetting once. */
  method ResetTwice(p: FilterProvider)
    modifies p
    ensures p.filter == DefaultFilter
  {
    p.ResetFilters();
    var once := p.filter;
    p.ResetFilters();
    assert p.filter == once;
  }

  /** `useFilter()`: the provided filter inside a provider, an error
      (the thrown `Error`) outside one. */
  function UseFilter(context: Option<TaskFilter>): (r: Result<TaskFilter, string>)
    ensures r.Err? <==> context.None?
    ensures context.Some? ==> r == Ok(context.value)
    ensures r.Err? ==> r.error == OutsideProviderMessage
  {
    match context
    case None => Err(OutsideProviderMessage)
    case Some(f) => Ok(f)
  }
}
