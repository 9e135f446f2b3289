/**
 * The reusable search bar: a controlled text field whose submit hands the
 * trimmed term to the parent's search handler, and only a non-blank one.
 */
module SearchBarView {
  import opened Wrappers
  import opened Strings

  class SearchBar {
    /** The text in the field. */
    var value: string

    /** The field starts with the initial value, empty unless one is given. */
    constructor(initialValue: string := "")
      ensures value == initialValue
    {
      value := initialValue;
    }

    /** Typing replaces the field's text wholesale. */
    method Change(newValue: string)
      modifies this`value
      ensures value == newValue
    {
      value := newValue;
    }

    /** Submitting: returns the argument `onSearch` is called with, or `None`
        when it is not called. It is called exactly when the trimmed text is
        non-empty, with exactly the trimmed text; the field keeps its text. */
    method Submit() returns (searched: Option<string>)
      ensures searched.Some? <==> !Blank(value)
      ensures searched.Some? ==> searched.value == Trim(value) && searched.value != ""
    {
      searched := TrimmedIfNonBlank(value);
    }
  }

  /** Typing a term padded with whitespace and submitting hands `onSearch`
      the same argument as typing the bare term; typing only whitespace hands
      it nothing. */
  method SubmitScenario(pad: string, term: string, trailing: string) returns (padded: Option<string>, bare: Option<string>)
    requires Blank(pad) && Blank(trailing)
    ensures padded == bare
    ensures Blank(term) ==> padded.None?
  {
    var bar := new SearchBar();
    bar.Change(pad + term + trailing);
    padded := bar.Submit();
    bar.Change(term);
    bare := bar.Submit();
    TrimmedIfNonBlankIgnoresPadding(pad, term, trailing);
  }
}
