/** The provider's menu management page, src/app/provider/menu/page.tsx: the meal form,
    the add and edit dialogs, and the request `handleSubmit` builds from the form. */
module MenuManagement {
  import opened Types
  import opened Text

  /** A meal as the provider endpoint returns it; `price` is an integer here and the
      description or image may be null. */
  datatype Meal = Meal(id: string, name: string, price: int, description: Option<string>,
                       image: Option<string>, categoryId: string)

  datatype Category = Category(id: string, name: string)

  /** The form's text fields. */
  datatype FormData = FormData(name: string, price: string, description: string, image: string, categoryId: string)

  /** The JSON body of a save: `price` is `parseInt` of the field (NaN serialises as
      null, here `None`), and an empty image is sent as null. */
  datatype MealPayload = MealPayload(name: string, price: Option<int>, description: string,
                                     image: Option<string>, categoryId: string)

  datatype MealRequest = MealRequest(path: string, verb: string, body: Option<MealPayload>)

  /** What the meal list or category endpoint answered: a throw, or a body. */
  datatype MealsResponse = MealsThrew | MealsJson(success: bool, data: Option<seq<Meal>>)
  datatype CategoriesResponse = CategoriesThrew | CategoriesJson(success: bool, data: seq<Category>)

  /** What a save or delete answered: a throw, or a status with an optional error message. */
  datatype SaveResponse = SaveThrew | SaveAnswer(ok: bool, message: Option<string>)

  datatype Notice = Success(text: string) | Error(text: string)

  const MealsPath: string := "/api/provider/meals"

  /** The empty form, with the first category preselected when there is one. */
  function EmptyForm(categories: seq<Category>): (f: FormData)
    ensures f.name == "" && f.price == "" && f.description == "" && f.image == ""
    ensures f.categoryId == if categories != [] then categories[0].id else ""
  {
    FormData("", "", "", "", if categories != [] then categories[0].id else "")
  }

  /** The form `openEditDialog` fills from a meal. */
  function EditForm(meal: Meal): (f: FormData)
    ensures f.name == meal.name && f.categoryId == meal.categoryId
    ensures f.price == IntToString(meal.price)
    ensures f.description == (if meal.description.Some? then meal.description.value else "")
    ensures f.image == (if meal.image.Some? then meal.image.value else "")
  {
    FormData(meal.name, IntToString(meal.price),
      if meal.description.Some? then meal.description.value else "",
      if meal.image.Some? then meal.image.value else "",
      meal.categoryId)
  }

  /** The body `handleSubmit` serialises. */
  function PayloadOf(f: FormData): (p: MealPayload)
    ensures p.name == f.name && p.description == f.description && p.categoryId == f.categoryId
    ensures p.price == ParseInt(f.price)
    ensures p.image.None? <==> f.image == ""
    ensures p.image.Some? ==> p.image.value == f.image
  {
    MealPayload(f.name, ParseInt(f.price), f.description, if f.image == "" then None else Some(f.image), f.categoryId)
  }

  /** The URL and verb: PUT to the meal's own path while editing, POST to the collection otherwise. */
  function SaveRequest(editing: Option<Meal>, f: FormData): (r: MealRequest)
    ensures editing.Some? ==> r.path == MealsPath + "/" + editing.value.id && r.verb == "PUT"
    ensures editing.None? ==> r.path == MealsPath && r.verb == "POST"
    ensures r.body == Some(PayloadOf(f))
  {
    if editing.Some? then MealRequest(MealsPath + "/" + editing.value.id, "PUT", Some(PayloadOf(f)))
    else MealRequest(MealsPath, "POST", Some(PayloadOf(f)))
  }

  /** The toast after a save. */
  function SaveNotice(editing: bool, r: SaveResponse): (n: Notice)
    ensures n.Success? <==> r.SaveAnswer? && r.ok
    ensures r.SaveAnswer? && !r.ok && r.message.Some? && r.message.value != "" ==> n == Error(r.message.value)
  {
    match r
    case SaveThrew => Error("Failed to save meal")
    case SaveAnswer(ok, m) =>
      if ok then Success(if editing then "Meal updated successfully" else "Meal added successfully")
      else if m.Some? && m.value != "" then Error(m.value)
      else Error("Failed to save meal")
  }

  /** The meal list after `fetchMenuData`: `data || []` on success, unchanged otherwise. */
  function AfterMealsFetch(meals: seq<Meal>, r: MealsResponse): seq<Meal>
  {
    if r.MealsJson? && r.success then (if r.data.Some? then r.data.value else []) else meals
  }

  /** The toast of `fetchMenuData`: none on a successful body, one for an unsuccessful
      body and another for a fetch that threw. */
  function MealsNotice(r: MealsResponse): (n: Option<Notice>)
    ensures n.None? <==> r.MealsJson? && r.success
    ensures r.MealsJson? && !r.success ==> n == Some(Error("Failed to fetch meals"))
    ensures r.MealsThrew? ==> n == Some(Error("Failed to fetch menu"))
  {
    match r
    case MealsThrew => Some(Error("Failed to fetch menu"))
    case MealsJson(ok, _) => if ok then None else Some(Error("Failed to fetch meals"))
  }

  /** The form after `fetchCategories` as the page behaves: the mount effect runs the
      `fetchCategories` of the first render, whose `formData.categoryId` is the initial
      "", so the guard always holds and a loaded non-empty list overwrites the category. */
  function DefaultCategoryAsWritten(f: FormData, r: CategoriesResponse): (g: FormData)
    ensures g.name == f.name && g.price == f.price && g.description == f.description && g.image == f.image
    ensures r.CategoriesJson? && r.success && r.data != [] ==> g.categoryId == r.data[0].id
    ensures !(r.CategoriesJson? && r.success && r.data != []) ==> g == f
  {
    if r.CategoriesJson? && r.success && r.data != [] then f.(categoryId := r.data[0].id) else f
  }

  /** The rule the guard evidently intends: the first category is preselected only when
      none was chosen and some were fetched. */
  function DefaultCategory(f: FormData, r: CategoriesResponse): (g: FormData)
    ensures g.name == f.name && g.price == f.price && g.description == f.description && g.image == f.image
    ensures g.categoryId == if r.CategoriesJson? && r.success && r.data != [] && f.categoryId == ""
                            then r.data[0].id else f.categoryId
  {
    if r.CategoriesJson? && r.success && r.data != [] && f.categoryId == "" then f.(categoryId := r.data[0].id) else f
  }

  /** The submit button's `disabled`. */
  predicate SubmitDisabled(isSubmitting: bool, f: FormData)
  {
    isSubmitting || f.categoryId == ""
  }

  /** Editing a meal and saving it unchanged sends the meal back: the price string reads
      back as the same number, a null description becomes "", and a null or empty image is
      sent as null. */
  lemma EditRoundTrip(meal: Meal)
    ensures var p := PayloadOf(EditForm(meal));
      && p.name == meal.name && p.categoryId == meal.categoryId
      && p.price == Some(meal.price)
      && p.description == (if meal.description.Some? then meal.description.value else "")
      && p.image == (if meal.image == Some("") then None else meal.image)
  {
    ParseIntOfIntToString(meal.price);
  }

  /** A reset form can be submitted exactly when some category exists (and nothing is
      being submitted); a loaded category list preselects its first entry. */
  lemma ResetFormSubmittable(categories: seq<Category>, isSubmitting: bool)
    ensures !SubmitDisabled(isSubmitting, EmptyForm(categories)) <==>
      !isSubmitting && categories != [] && categories[0].id != ""
  {
  }

  /** Under the intended rule a category already chosen is never overwritten by the loaded list. */
  lemma DefaultCategoryKeepsChoice(f: FormData, r: CategoriesResponse)
    requires f.categoryId != ""
    ensures DefaultCategory(f, r) == f
  {
  }

  /** As written, a category chosen before the list arrives (the edit dialog opened early)
      is replaced by the first loaded one. */
  lemma ChosenCategoryOverwritten()
    ensures var f := FormData("Soup", "5", "", "", "c2");
      var r := CategoriesJson(true, [Category("c1", "Starters"), Category("c2", "Mains")]);
      DefaultCategoryAsWritten(f, r).categoryId == "c1" && DefaultCategory(f, r).categoryId == "c2"
  {
  }

  /** The two rules agree whenever no category was chosen yet, which is the form the
      first render's closure sees. */
  lemma DefaultCategoryAgreesWhenUnchosen(f: FormData, r: CategoriesResponse)
    requires f.categoryId == ""
    ensures DefaultCategoryAsWritten(f, r) == DefaultCategory(f, r)
  {
  }

  class MenuPage {
    var meals: seq<Meal>
    var categories: seq<Category>
    var loading: bool
    var isSubmitting: bool
    var editingMeal: Option<Meal>
    var isAddDialogOpen: bool
    var formData: FormData

    constructor ()
      ensures meals == [] && categories == [] && loading && !isSubmitting
      ensures editingMeal.None? && !isAddDialogOpen && formData == EmptyForm([])
    {
      meals, categories := [], [];
      loading, isSubmitting := true, false;
      editingMeal, isAddDialogOpen := None, false;
      formData := EmptyForm([]);
    }

    /** The submit button's state now. */
    predicate SubmitBlocked()
      reads this
    {
      SubmitDisabled(isSubmitting, formData)
    }

    /** `fetchMenuData`: on a successful body replaces the meals; the toast on failure. */
    method FetchMenuData(r: MealsResponse) returns (notice: Option<Notice>)
      modifies this`meals, this`loading
      ensures meals == AfterMealsFetch(old(meals), r)
      ensures notice == MealsNotice(r)
      ensures !loading
    {
      notice := None;
      if r.MealsJson? && r.success {
        meals := if r.data.Some? then r.data.value else [];
      } else if r.MealsJson? {
        notice := Some(Error("Failed to fetch meals"));
      } else {
        notice := Some(Error("Failed to fetch menu"));
      }
      loading := false;
    }

    /** `fetchCategories` as the mount effect runs it: the guard reads the category of
        the form the first render saw, which is "". */
    method FetchCategories(r: CategoriesResponse)
      modifies this`categories, this`formData
      ensures categories == if r.CategoriesJson? && r.success then r.data else old(categories)
      ensures formData == DefaultCategoryAsWritten(old(formData), r)
    {
      var mountForm := EmptyForm([]);
      if r.CategoriesJson? && r.success {
        categories := r.data;
        if |r.data| > 0 && mountForm.categoryId == "" {
          formData := formData.(categoryId := r.data[0].id);
        }
      }
    }

    /** `resetForm`. */
    method ResetForm()
      modifies this`formData
      ensures formData == EmptyForm(categories)
    {
      formData := FormData("", "", "", "", if |categories| > 0 then categories[0].id else "");
    }

    /** `openEditDialog`. */
    method OpenEditDialog(meal: Meal)
      modifies this`editingMeal, this`formData, this`isAddDialogOpen
      ensures editingMeal == Some(meal) && formData == EditForm(meal) && isAddDialogOpen
    {
      editingMeal := Some(meal);
      formData := EditForm(meal);
      isAddDialogOpen := true;
    }

    /** `openAddDialog`. */
    method OpenAddDialog()
      modifies this`editingMeal, this`formData, this`isAddDialogOpen
      ensures editingMeal.None? && formData == EmptyForm(categories) && isAddDialogOpen
      ensures SubmitBlocked() <==> isSubmitting || categories == [] || categories[0].id == ""
    {
      editingMeal := None;
      ResetForm();
      isAddDialogOpen := true;
    }

    /** The dialog's `onOpenChange` and its Cancel button. */
    method SetDialogOpen(open: bool)
      modifies this`isAddDialogOpen
      ensures isAddDialogOpen == open
    {
      isAddDialogOpen := open;
    }

    /** `handleSubmit`: sends the save request; on an ok answer resets the form,
        refetches the meals, closes the dialog and leaves edit mode; `isSubmitting` ends. */
    method HandleSubmit(response: SaveResponse, refetch: MealsResponse)
      returns (request: MealRequest, notice: Notice, refetchNotice: Option<Notice>)
      modifies this`isSubmitting, this`formData, this`meals, this`loading, this`isAddDialogOpen, this`editingMeal
      ensures request == SaveRequest(old(editingMeal), old(formData))
      ensures notice == SaveNotice(old(editingMeal).Some?, response)
      ensures refetchNotice == if response.SaveAnswer? && response.ok then MealsNotice(refetch) else None
      ensures !isSubmitting
      ensures response.SaveAnswer? && response.ok ==>
        && formData == EmptyForm(categories) && meals == AfterMealsFetch(old(meals), refetch) && !loading
        && !isAddDialogOpen && editingMeal.None?
      ensures !(response.SaveAnswer? && response.ok) ==>
        && formData == old(formData) && meals == old(meals) && loading == old(loading)
        && isAddDialogOpen == old(isAddDialogOpen) && editingMeal == old(editingMeal)
    {
      isSubmitting := true;
      request := SaveRequest(editingMeal, formData);
      notice := SaveNotice(editingMeal.Some?, response);
      refetchNotice := None;
      if response.SaveAnswer? && response.ok {
        ResetForm();
        refetchNotice := FetchMenuData(refetch);
        isAddDialogOpen := false;
        editingMeal := None;
      }
      isSubmitting := false;
    }

    /** `handleDelete`: nothing without the confirmation; otherwise a DELETE of the meal,
        and a refetch when it was ok. */
    method HandleDelete(mealId: string, confirmed: bool, response: SaveResponse, refetch: MealsResponse)
      returns (request: Option<MealRequest>, notice: Option<Notice>, refetchNotice: Option<Notice>)
      modifies this`meals, this`loading
      ensures !(confirmed && response.SaveAnswer? && response.ok) ==> refetchNotice.None?
      ensures confirmed && response.SaveAnswer? && response.ok ==> refetchNotice == MealsNotice(refetch)
      ensures !confirmed ==> request.None? && notice.None? && meals == old(meals) && loading == old(loading)
      ensures confirmed ==> request == Some(MealRequest(MealsPath + "/" + mealId, "DELETE", None))
      ensures confirmed && response.SaveAnswer? && response.ok ==>
        notice == Some(Success("Meal deleted successfully")) && meals == AfterMealsFetch(old(meals), refetch) && !loading
      ensures confirmed && !(response.SaveAnswer? && response.ok) ==>
        notice == Some(Error("Failed to delete meal")) && meals == old(meals) && loading == old(loading)
    {
      refetchNotice := None;
      if !confirmed {
        return None, None, None;
      }
      request := Some(MealRequest(MealsPath + "/" + mealId, "DELETE", None));
      if response.SaveAnswer? && response.ok {
        notice := Some(Success("Meal deleted successfully"));
        refetchNotice := FetchMenuData(refetch);
      } else {
        notice := Some(Error("Failed to delete meal"));
      }
    }
  }

  /** Opening the edit dialog for a meal and saving at once sends a PUT to that meal's
      path carrying the meal itself. */
  method EditThenSave(page: MenuPage, meal: Meal, response: SaveResponse, refetch: MealsResponse)
    returns (request: MealRequest)
    modifies page
    ensures request.path == MealsPath + "/" + meal.id && request.verb == "PUT"
    ensures request.body.Some? && request.body.value.price == Some(meal.price)
    ensures request.body.value.name == meal.name && request.body.value.categoryId == meal.categoryId
  {
    page.OpenEditDialog(meal);
    var notice, refetchNotice;
    request, notice, refetchNotice := page.HandleSubmit(response, refetch);
    EditRoundTrip(meal);
  }
}
