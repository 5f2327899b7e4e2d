/**
 * The food manager dialog: a list of the user's foods with a search box,
 * and one form for adding a food or editing one, switched by a mode.
 */
module ManageFoods {
  import opened Wrappers
  import opened Parsing
  import opened Records
  import opened Tables

  datatype Mode = List | Add | Edit

  /** The form: the text in each field, and the id of the food being edited. */
  datatype FormData = FormData(id: Option<string>, name: string, caloriesPerUnit: string, proteinPerUnit: string)

  const EmptyForm := FormData(None, "", "", "")

  /** The first check that fails. */
  datatype FormError = NameRequired | CaloriesInvalid | ProteinInvalid

  function Message(e: FormError): string
  {
    match e
    case NameRequired => "Food name is required"
    case CaloriesInvalid => "Calories must be a positive number"
    case ProteinInvalid => "Protein must be a positive number"
  }

  /** `parseFloat` gives a number and it is not negative; zero passes. */
  predicate NonNegativeNumber(text: string)
  {
    ParseFloat(text).Some? && ParseFloat(text).value >= 0.0
  }

  /**
   * `validateForm`: the name, then the calories, then the protein; the
   * first failure decides the message.
   */
  function Check(form: FormData): (r: Option<FormError>)
    ensures r.None? <==> !IsBlank(form.name) && NonNegativeNumber(form.caloriesPerUnit) && NonNegativeNumber(form.proteinPerUnit)
    ensures r == Some(NameRequired) <==> IsBlank(form.name)
    ensures r == Some(CaloriesInvalid) <==> !IsBlank(form.name) && !NonNegativeNumber(form.caloriesPerUnit)
    ensures r == Some(ProteinInvalid) <==>
      !IsBlank(form.name) && NonNegativeNumber(form.caloriesPerUnit) && !NonNegativeNumber(form.proteinPerUnit)
  {
    if IsBlank(form.name) then Some(NameRequired)
    else if !NonNegativeNumber(form.caloriesPerUnit) then Some(CaloriesInvalid)
    else if !NonNegativeNumber(form.proteinPerUnit) then Some(ProteinInvalid)
    else None
  }

  /** A food with zero calories and zero protein is accepted. */
  lemma ZeroAccepted(name: string)
    requires !IsBlank(name)
    ensures Check(FormData(None, name, NatToString(0), NatToString(0))) == None
  {
    ParseFloatNatToString(0);
  }

  /** `food.name.toLowerCase().includes(searchQuery.toLowerCase())` */
  function Matches(query: string): Food -> bool
  {
    (f: Food) => Contains(ToLower(f.name), ToLower(query))
  }

  /** `filteredFoods`: the foods whose name holds the query, case aside, in list order. */
  function FilteredFoods(foods: seq<Food>, query: string): (r: seq<Food>)
    ensures forall i :: 0 <= i < |r| ==> r[i] in foods && Contains(ToLower(r[i].name), ToLower(query))
    ensures forall i :: 0 <= i < |foods| && Contains(ToLower(foods[i].name), ToLower(query)) ==> foods[i] in r
  {
    Filter(foods, Matches(query))
  }

  /** An empty search shows every food. */
  lemma EmptyQueryKeepsAll(foods: seq<Food>)
    ensures FilteredFoods(foods, "") == foods
  {
    forall i | 0 <= i < |foods|
      ensures Matches("")(foods[i])
    {
      ContainsEmpty(ToLower(foods[i].name));
    }
    FilterAll(foods, Matches(""));
  }

  lemma {:induction false} ToLowerIdempotent(s: string)
    ensures ToLower(ToLower(s)) == ToLower(s)
  {
    assert forall i :: 0 <= i < |s| ==> LowerChar(LowerChar(s[i])) == LowerChar(s[i]);
  }

  /** The case of the query does not matter. */
  lemma QueryCaseIgnored(foods: seq<Food>, query: string)
    ensures FilteredFoods(foods, query) == FilteredFoods(foods, ToLower(query))
  {
    ToLowerIdempotent(query);
    assert Matches(query) == Matches(ToLower(query));
  }

  /** The request a valid submit sends: a POST in add mode, a PUT carrying the id otherwise. */
  datatype FoodRequest =
    | PostFood(name: string, caloriesPerUnit: real, proteinPerUnit: real)
    | PutFood(id: Option<string>, name: string, caloriesPerUnit: real, proteinPerUnit: real)

  class Manager {
    var foods: seq<Food>
    var searchQuery: string
    var mode: Mode
    var formData: FormData
    var formError: string

    constructor ()
      ensures foods == [] && searchQuery == "" && mode == List && formData == EmptyForm && formError == ""
    {
      foods := [];
      searchQuery := "";
      mode := List;
      formData := EmptyForm;
      formError := "";
    }

    /** The foods on display: those whose name holds the search text, case aside, in list order. */
    function Shown(): (r: seq<Food>)
      reads this
      ensures r == FilteredFoods(foods, searchQuery)
      ensures forall i :: 0 <= i < |r| ==> r[i] in foods && Contains(ToLower(r[i].name), ToLower(searchQuery))
      ensures forall i :: 0 <= i < |foods| && Contains(ToLower(foods[i].name), ToLower(searchQuery)) ==> foods[i] in r
    {
      FilteredFoods(foods, searchQuery)
    }

    /** `fetchFoods`: the list from the server, or empty when the request fails. */
    method FetchFoods(response: Fetch<seq<Food>>)
      modifies this
      ensures foods == (if response.Fetched? then response.body else [])
      ensures searchQuery == old(searchQuery) && mode == old(mode) && formData == old(formData) && formError == old(formError)
    {
      if response.Fetched? {
        foods := response.body;
      } else {
        foods := [];
      }
    }

    /** Opening the dialog loads the foods and shows the list. */
    method Open(response: Fetch<seq<Food>>)
      modifies this
      ensures foods == (if response.Fetched? then response.body else []) && mode == List
      ensures searchQuery == old(searchQuery) && formData == old(formData) && formError == old(formError)
    {
      FetchFoods(response);
      mode := List;
    }

    method SetSearchQuery(query: string)
      modifies this
      ensures searchQuery == query
      ensures foods == old(foods) && mode == old(mode) && formData == old(formData) && formError == old(formError)
    {
      searchQuery := query;
    }

    /** `handleAddNew`: an empty form in add mode. */
    method HandleAddNew()
      modifies this
      ensures mode == Add && formData == EmptyForm
      ensures foods == old(foods) && searchQuery == old(searchQuery) && formError == old(formError)
    {
      formData := EmptyForm;
      mode := Add;
    }

    /**
     * `handleEditFood`: the food's fields copied into the form in edit mode.
     * `caloriesText` and `proteinText` are `toString()` of its numbers,
     * which `parseFloat` reads back.
     */
    method HandleEditFood(food: Food, caloriesText: string, proteinText: string)
      requires ParseFloat(caloriesText) == Some(food.caloriesPerUnit)
      requires ParseFloat(proteinText) == Some(food.proteinPerUnit)
      modifies this
      ensures mode == Edit
      ensures formData == FormData(Some(NatToString(food.id)), food.name, caloriesText, proteinText)
      ensures foods == old(foods) && searchQuery == old(searchQuery) && formError == old(formError)
    {
      formData := FormData(Some(NatToString(food.id)), food.name, caloriesText, proteinText);
      mode := Edit;
    }

    /** `handleInputChange`: one field takes the typed text. */
    method SetName(text: string)
      modifies this
      ensures formData == old(formData).(name := text)
      ensures foods == old(foods) && searchQuery == old(searchQuery) && mode == old(mode) && formError == old(formError)
    {
      formData := formData.(name := text);
    }

    method SetCalories(text: string)
      modifies this
      ensures formData == old(formData).(caloriesPerUnit := text)
      ensures foods == old(foods) && searchQuery == old(searchQuery) && mode == old(mode) && formError == old(formError)
    {
      formData := formData.(caloriesPerUnit := text);
    }

    method SetProtein(text: string)
      modifies this
      ensures formData == old(formData).(proteinPerUnit := text)
      ensures foods == old(foods) && searchQuery == old(searchQuery) && mode == old(mode) && formError == old(formError)
    {
      formData := formData.(proteinPerUnit := text);
    }

    /** `validateForm`: sets the error message of the first failing check, or clears it. */
    method ValidateForm() returns (valid: bool)
      modifies this
      ensures valid <==> Check(formData).None?
      ensures formError == if valid then "" else Message(Check(formData).value)
      ensures foods == old(foods) && searchQuery == old(searchQuery) && mode == old(mode) && formData == old(formData)
    {
      var e := Check(formData);
      if e.Some? {
        formError := Message(e.value);
        return false;
      }
      formError := "";
      return true;
    }

    /**
     * `handleSubmit`: an invalid form sends nothing and stays as it is. A
     * valid one sends the parsed numbers; when the request succeeds
     * (`ok`) the foods are fetched again and the list is shown, and when it
     * fails the form stays open with a message naming the operation.
     */
    method HandleSubmit(ok: bool, refetched: Fetch<seq<Food>>) returns (request: Option<FoodRequest>)
      modifies this
      ensures request.None? <==> Check(old(formData)).Some?
      ensures request.None? ==>
        mode == old(mode) && foods == old(foods) && formError == Message(Check(old(formData)).value)
      ensures request.Some? ==>
        var f := old(formData);
        request.value == (if old(mode) == Add
          then PostFood(f.name, ParseFloat(f.caloriesPerUnit).value, ParseFloat(f.proteinPerUnit).value)
          else PutFood(f.id, f.name, ParseFloat(f.caloriesPerUnit).value, ParseFloat(f.proteinPerUnit).value))
      ensures request.Some? && ok ==>
        mode == List && formError == "" && foods == (if refetched.Fetched? then refetched.body else [])
      ensures request.Some? && !ok ==> mode == old(mode) && foods == old(foods)
      ensures request.Some? && !ok ==>
        formError == (if old(mode) == Add then "Failed to add food. Please try again." else "Failed to update food. Please try again.")
      ensures formData == old(formData) && searchQuery == old(searchQuery)
    {
      var valid := ValidateForm();
      if !valid {
        return None;
      }
      var calories := ParseFloat(formData.caloriesPerUnit).value;
      var protein := ParseFloat(formData.proteinPerUnit).value;
      if mode == Add {
        request := Some(PostFood(formData.name, calories, protein));
      } else {
        request := Some(PutFood(formData.id, formData.name, calories, protein));
      }
      if !ok {
        formError := if mode == Add then "Failed to add food. Please try again." else "Failed to update food. Please try again.";
        return;
      }
      FetchFoods(refetched);
      mode := List;
    }

    /** `resetForm`: back to the list with an empty form and no error. */
    method ResetForm()
      modifies this
      ensures mode == List && formData == EmptyForm && formError == ""
      ensures foods == old(foods) && searchQuery == old(searchQuery)
    {
      formData := EmptyForm;
      formError := "";
      mode := List;
    }
  }

  /** Editing a well-formed food and saving it at once sends its own values back. */
  method EditAndSave(m: Manager, food: Food, caloriesText: string, proteinText: string, ok: bool, refetched: Fetch<seq<Food>>)
    returns (request: Option<FoodRequest>)
    requires ParseFloat(caloriesText) == Some(food.caloriesPerUnit) && food.caloriesPerUnit >= 0.0
    requires ParseFloat(proteinText) == Some(food.proteinPerUnit) && food.proteinPerUnit >= 0.0
    requires !IsBlank(food.name)
    modifies m
    ensures request == Some(PutFood(Some(NatToString(food.id)), food.name, food.caloriesPerUnit, food.proteinPerUnit))
  {
    m.HandleEditFood(food, caloriesText, proteinText);
    request := m.HandleSubmit(ok, refetched);
  }
}
