/**
  The search form: the text typed so far, what submitting it and the "Meu IP" button
  hand to the application, which controls are disabled while a lookup runs, and when
  the error panel is shown.
 */
module SearchContainer {
  import opened Wrappers
  import opened Js

  const SearchLabel := "Buscar"
  const SearchingLabel := "Buscando..."

  class SearchForm {
    /** The input's current text. */
    var query: string

    /** The form starts empty. */
    constructor ()
      ensures query == ""
    {
      query := "";
    }

    /** Typing replaces the text. */
    method SetQuery(value: string)
      modifies this
      ensures query == value
    {
      query := value;
    }

    /** The search button is disabled while a lookup runs and while the text is blank. */
    function SearchDisabled(loading: bool): (d: bool)
      reads this
      ensures d <==> loading || Blank(query)
    {
      loading || Trim(query) == ""
    }

    /**
      Submitting asks for a search exactly when the search button is enabled, and then
      for the trimmed text, which is never empty. The text itself is kept.
     */
    method HandleSubmit(loading: bool) returns (search: Option<string>)
      ensures search.Some? <==> !SearchDisabled(loading)
      ensures search.Some? ==> search.value == Trim(query) && search.value != ""
    {
      var trimmed := Trim(query);
      if trimmed != "" && !loading {
        search := Some(trimmed);
      } else {
        search := None;
      }
    }

    /** "Meu IP" asks for the user's own location unless a lookup runs, and then clears the text. */
    method HandleMyIP(loading: bool) returns (requested: bool)
      modifies this
      ensures requested == !loading
      ensures query == (if loading then old(query) else "")
    {
      requested := !loading;
      if !loading {
        query := "";
      }
    }
  }

  /** The input and the "Meu IP" button are disabled exactly while a lookup runs. */
  function InputDisabled(loading: bool): bool
  {
    loading
  }

  /** The search button's label. */
  function SearchButtonLabel(loading: bool): (text: string)
    ensures text != SearchLabel <==> loading
    ensures loading ==> text == SearchingLabel
  {
    if loading then SearchingLabel else SearchLabel
  }

  /** The error panel shows the application's error when it is a non-empty message, and is absent otherwise. */
  function ErrorPanel(error: Option<string>): (shown: Option<string>)
    ensures shown.Some? <==> error.Some? && error.value != ""
    ensures shown.Some? ==> shown == error
  {
    if error.Some? && error.value != "" then error else None
  }
}
