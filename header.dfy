/** The live product search and mobile menu of the site header
    (src/components/Header/Header.tsx). */
module Header {
  import opened Seqs
  import opened Products
  import opened Text

  /** The queries shorter than this, in UTF-16 code units, do not search. */
  const MinQueryLength := 2

  /** The dropdown lists at most this many results. */
  const PreviewSize := 5

  /** The header state. `catalog` is the product list it searches, the static
      product table. */
  class HeaderSearch {
    const catalog: seq<Product>
    var searchQuery: string
    var searchResults: seq<Product>
    var isSearchFocused: bool
    var showResults: bool
    var isMobileMenuOpen: bool

    /** The results belong to the query whenever it is long enough to search,
        and results are only ever shown for such a query. */
    ghost predicate Valid()
      reads this
    {
      (Utf16Length(searchQuery) >= MinQueryLength ==> searchResults == SearchProducts(catalog, searchQuery)) &&
      (showResults ==> Utf16Length(searchQuery) >= MinQueryLength)
    }

    constructor ()
      ensures Valid()
      ensures catalog == ProductsData
      ensures searchQuery == "" && searchResults == [] && !isSearchFocused && !showResults && !isMobileMenuOpen
    {
      catalog := ProductsData;
      searchQuery := "";
      searchResults := [];
      isSearchFocused := false;
      showResults := false;
      isMobileMenuOpen := false;
    }

    /** `handleSearch`: a typed query searches once it has two characters. */
    method HandleSearch(query: string)
      requires Valid()
      modifies this`searchQuery, this`searchResults, this`showResults
      ensures Valid()
      ensures searchQuery == query
      ensures Utf16Length(query) < MinQueryLength ==> searchResults == [] && !showResults
      ensures Utf16Length(query) >= MinQueryLength ==> searchResults == SearchProducts(catalog, query) && showResults
    {
      searchQuery := query;
      if Utf16Length(query) == 0 {
        searchResults := [];
        showResults := false;
        return;
      }
      if Utf16Length(query) < MinQueryLength {
        searchResults := [];
        showResults := false;
        return;
      }
      searchResults := SearchProducts(catalog, query);
      showResults := true;
    }

    /** `handleSearchSubmit`: a non-empty query closes the dropdown and leaves
        the field; an empty one changes nothing. */
    method HandleSearchSubmit()
      requires Valid()
      modifies this`showResults, this`isSearchFocused
      ensures Valid()
      ensures Utf16Length(searchQuery) == 0 ==> showResults == old(showResults) && isSearchFocused == old(isSearchFocused)
      ensures Utf16Length(searchQuery) > 0 ==> !showResults && !isSearchFocused
    {
      if Utf16Length(searchQuery) > 0 {
        showResults := false;
        isSearchFocused := false;
      }
    }

    /** `handleResultClick`: picking a result clears the query and closes the
        dropdown. */
    method HandleResultClick(product: Product)
      requires Valid()
      modifies this`searchQuery, this`showResults, this`isSearchFocused
      ensures Valid()
      ensures searchQuery == "" && !showResults && !isSearchFocused
    {
      searchQuery := "";
      showResults := false;
      isSearchFocused := false;
    }

    /** The clear button: empties the query and the results. */
    method ClearSearch()
      requires Valid()
      modifies this`searchQuery, this`searchResults, this`showResults
      ensures Valid()
      ensures searchQuery == "" && searchResults == [] && !showResults
    {
      searchQuery := "";
      searchResults := [];
      showResults := false;
    }

    /** A mouse press: outside the search box it closes the dropdown and
        leaves the field. */
    method ClickOutside(insideSearch: bool)
      requires Valid()
      modifies this`showResults, this`isSearchFocused
      ensures Valid()
      ensures insideSearch ==> showResults == old(showResults) && isSearchFocused == old(isSearchFocused)
      ensures !insideSearch ==> !showResults && !isSearchFocused
    {
      if !insideSearch {
        showResults := false;
        isSearchFocused := false;
      }
    }

    /** A key press: Escape closes the menu and the dropdown and leaves the
        field; other keys change nothing. */
    method KeyDown(key: string)
      requires Valid()
      modifies this`isMobileMenuOpen, this`showResults, this`isSearchFocused
      ensures Valid()
      ensures key == "Escape" ==> !isMobileMenuOpen && !showResults && !isSearchFocused
      ensures key != "Escape" ==>
        isMobileMenuOpen == old(isMobileMenuOpen) && showResults == old(showResults) &&
        isSearchFocused == old(isSearchFocused)
    {
      if key == "Escape" {
        isMobileMenuOpen := false;
        showResults := false;
        isSearchFocused := false;
      }
    }

    /** Focusing the field reopens the dropdown when a searching query has
        results. */
    method Focus()
      requires Valid()
      modifies this`isSearchFocused, this`showResults
      ensures Valid()
      ensures isSearchFocused
      ensures showResults == (old(showResults) ||
                              (Utf16Length(searchQuery) >= MinQueryLength && |searchResults| > 0))
    {
      isSearchFocused := true;
      if Utf16Length(searchQuery) >= MinQueryLength && |searchResults| > 0 {
        showResults := true;
      }
    }

    /** The menu button opens a closed menu and closes an open one. */
    method ToggleMobileMenu()
      requires Valid()
      modifies this`isMobileMenuOpen
      ensures Valid()
      ensures isMobileMenuOpen == !old(isMobileMenuOpen)
    {
      isMobileMenuOpen := !isMobileMenuOpen;
    }

    /** Following a menu link closes the menu. */
    method CloseMobileMenu()
      requires Valid()
      modifies this`isMobileMenuOpen
      ensures Valid()
      ensures !isMobileMenuOpen
    {
      isMobileMenuOpen := false;
    }

    /** The dropdown is rendered. */
    predicate DropdownVisible()
      reads this
      ensures Valid() && DropdownVisible() ==> searchResults == SearchProducts(catalog, searchQuery)
    {
      showResults && isSearchFocused && Utf16Length(searchQuery) >= MinQueryLength
    }

    /** The results listed in the dropdown: the first five matches of the
        query, in table order. */
    function Preview(): (r: seq<Product>)
      reads this
      requires Valid()
      ensures |r| <= PreviewSize
      ensures |r| == if |searchResults| < PreviewSize then |searchResults| else PreviewSize
      ensures Utf16Length(searchQuery) >= MinQueryLength ==>
        forall i :: 0 <= i < |r| ==> r[i] in catalog && MatchesQuery(r[i], searchQuery)
    ensures forall i :: 0 <= i < |r| ==> r[i] == searchResults[i]
    {
      Take(searchResults, PreviewSize)
    }

    /** The "show all results" button is rendered. */
    predicate ShowAllVisible()
      reads this
      ensures Valid() && ShowAllVisible() ==>
        |Preview()| == PreviewSize < |SearchProducts(catalog, searchQuery)|
    {
      DropdownVisible() && |searchResults| > PreviewSize
    }
  }

  /** In a consistent state the dropdown is open exactly when results are
      shown and the field has focus: the length test is implied. */
  lemma DropdownVisibleIff(h: HeaderSearch)
    requires h.Valid()
    ensures h.DropdownVisible() <==> h.showResults && h.isSearchFocused
  {
  }

  /** When the "show all" button appears, the preview hides some matches. */
  lemma ShowAllMeansMore(h: HeaderSearch)
    requires h.Valid() && h.ShowAllVisible()
    ensures |h.Preview()| == PreviewSize < |h.searchResults|
    ensures |h.searchResults| == |SearchProducts(h.catalog, h.searchQuery)|
  {
  }
}
