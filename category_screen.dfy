/** The category screen (`category`): a paged list of categories beside a
    form that creates a category or, after `editCategory`, updates one. A new
    search keeps the current page. */
module CategoryScreen {
  import opened Values
  import opened Paging

  /** `{ ...searchForm.value, size, page }`: the paging fields win over any
      form field of the same name. */
  function SearchParams(searchForm: Record, size: int, page: int): (r: Record)
    ensures r.Keys == searchForm.Keys + {"size", "page"}
    ensures r["size"] == IntValue(size) && r["page"] == IntValue(page)
    ensures forall k :: k in searchForm && k != "size" && k != "page" ==> r[k] == searchForm[k]
  {
    Spread(searchForm, map["size" := IntValue(size), "page" := IntValue(page)])
  }

  /** The category form as the constructor builds it. */
  function InitialForm(): Record
  {
    map["name" := Str(""), "status" := Str("A")]
  }

  /** `categoryForm.valid`: both controls are `Validators.required`. */
  predicate FormValid(form: Record)
    ensures FormValid(form) ==> "name" in form && "status" in form
  {
    IsPresent(Field(form, "name")) && IsPresent(Field(form, "status"))
  }

  /** `categoryForm.reset({ status: 'A' })`. */
  function ResetCategoryForm(form: Record): (r: Record)
    ensures r.Keys == form.Keys
    ensures "status" in form ==> r["status"] == Str("A")
    ensures "name" in form ==> r["name"] == Null
  {
    ResetTo(form, "status", Str("A"))
  }

  /** `categoryForm.patchValue({ name, status })`. */
  function PatchCategoryForm(form: Record, name: Value, status: Value): (r: Record)
    ensures r.Keys == form.Keys + {"name", "status"}
    ensures r["name"] == name && r["status"] == status
  {
    Spread(form, map["name" := name, "status" := status])
  }

  /** A freshly built or freshly reset form is never submitted: the name is
      empty, or `null`. */
  lemma EmptyNameNotSubmitted(form: Record)
    ensures !FormValid(InitialForm())
    ensures "name" in form ==> !FormValid(ResetCategoryForm(form))
  {
  }

  /** After `editCategory` the form is submittable exactly when the category
      has a name and a status. */
  lemma EditedFormValid(form: Record, name: Value, status: Value)
    ensures FormValid(PatchCategoryForm(form, name, status)) <==> IsPresent(name) && IsPresent(status)
  {
  }

  class CategoryScreen {
    var categories: seq<Record>
    var categoryForm: Record
    var searchForm: Record
    var isLoading: bool
    var isEditing: bool
    /** `editingId`: the id of the category being edited, `undefined` (here
        `null`) otherwise. */
    var editingId: Value
    var currentPage: int
    var pageSize: int
    var totalPages: int
    var totalElements: int
    var startIndex: int
    var endIndex: int
    /** Toasts, oldest first. */
    var notifications: seq<Notice>
    /** The parameters of each `searchCategories` call, oldest first. */
    var requests: seq<Record>
    /** The create and update calls, oldest first. */
    var mutations: seq<Mutation>

    /** The parameters the next load sends. */
    function Params(): Record
      reads this
    {
      SearchParams(searchForm, pageSize, currentPage)
    }

    /** An empty form in create mode, the first page of ten, nothing loaded. */
    constructor ()
      ensures categories == [] && categoryForm == InitialForm()
      ensures searchForm == map["search" := Str(""), "status" := Str("A")]
      ensures !isLoading && !isEditing && editingId == Null
      ensures currentPage == 0 && pageSize == 10
      ensures totalPages == 0 && totalElements == 0 && startIndex == 0 && endIndex == 0
      ensures notifications == [] && requests == [] && mutations == []
    {
      categories := [];
      categoryForm := InitialForm();
      searchForm := map["search" := Str(""), "status" := Str("A")];
      isLoading := false;
      isEditing := false;
      editingId := Null;
      currentPage := 0;
      pageSize := 10;
      totalPages := 0;
      totalElements := 0;
      startIndex := 0;
      endIndex := 0;
      notifications := [];
      requests := [];
      mutations := [];
    }

    /** `ngOnInit()`: the first load. */
    method NgOnInit()
      modifies this`isLoading, this`requests
      ensures isLoading && requests == old(requests) + [Params()]
    {
      LoadCategories();
    }

    /** `loadCategories()`: ask for the current page. */
    method LoadCategories()
      modifies this`isLoading, this`requests
      ensures isLoading && requests == old(requests) + [Params()]
    {
      isLoading := true;
      requests := requests + [SearchParams(searchForm, pageSize, currentPage)];
    }

    /** `next` of `searchCategories`: the page is taken as it is, with
        `endIndex` written as `min((currentPage + 1) * pageSize, totalElements)`. */
    method OnLoadResponse(data: PageData)
      modifies this`categories, this`totalPages, this`totalElements, this`startIndex, this`endIndex, this`isLoading
      ensures categories == data.content && totalPages == data.totalPages && totalElements == data.totalElements
      ensures startIndex == StartIndex(currentPage, pageSize)
      ensures endIndex == EndIndex(currentPage, pageSize, totalElements)
      ensures endIndex - startIndex <= pageSize && endIndex <= totalElements
      ensures !isLoading
    {
      categories := data.content;
      totalPages := data.totalPages;
      totalElements := data.totalElements;
      startIndex := currentPage * pageSize;
      endIndex := Min((currentPage + 1) * pageSize, totalElements);
      EndIndexSpellings(currentPage, pageSize, totalElements);
      IndexBounds(currentPage, pageSize, totalElements);
      isLoading := false;
    }

    /** `error` of `searchCategories`. */
    method OnLoadError()
      modifies this`notifications, this`isLoading
      ensures notifications == old(notifications) + [Failure("Failed to load categories")] && !isLoading
    {
      notifications := notifications + [Failure("Failed to load categories")];
      isLoading := false;
    }

    /** `onSubmit()`: a valid form is sent to `updateCategory(editingId, ...)`
        in edit mode and to `createCategory` otherwise; an invalid form sends
        nothing. */
    method OnSubmit()
      modifies this`isLoading, this`mutations
      ensures FormValid(categoryForm) && isEditing ==>
                mutations == old(mutations) + [Update(editingId, categoryForm)] && isLoading
      ensures FormValid(categoryForm) && !isEditing ==>
                mutations == old(mutations) + [Create(categoryForm)] && isLoading
      ensures !FormValid(categoryForm) ==> mutations == old(mutations) && isLoading == old(isLoading)
    {
      if FormValid(categoryForm) {
        isLoading := true;
        if isEditing {
          mutations := mutations + [Update(editingId, categoryForm)];
        } else {
          mutations := mutations + [Create(categoryForm)];
        }
      }
    }

    /** `next` of the create or update call: the server's message as a toast,
        the form back in create mode, and the list reloaded. */
    method OnSaveResponse(message: string)
      modifies this`notifications, this`isEditing, this`editingId, this`categoryForm, this`isLoading, this`requests
      ensures notifications == old(notifications) + [Success(message)]
      ensures !isEditing && editingId == Null && categoryForm == ResetCategoryForm(old(categoryForm))
      ensures isLoading && requests == old(requests) + [Params()]
    {
      notifications := notifications + [Success(message)];
      ResetForm();
      LoadCategories();
    }

    /** `error` of the create or update call: the server's message, or a fallback. */
    method OnSaveError(message: Option<string>)
      modifies this`notifications, this`isLoading
      ensures notifications == old(notifications) + [Failure(ErrorText(message, "Operation failed"))]
      ensures !isLoading
    {
      notifications := notifications + [Failure(ErrorText(message, "Operation failed"))];
      isLoading := false;
    }

    /** `editCategory(category)`: edit mode for that category, its name and
        status copied into the form. */
    method EditCategory(id: Value, name: Value, status: Value)
      modifies this`isEditing, this`editingId, this`categoryForm
      ensures isEditing && editingId == id
      ensures categoryForm == PatchCategoryForm(old(categoryForm), name, status)
    {
      isEditing := true;
      editingId := id;
      categoryForm := PatchCategoryForm(categoryForm, name, status);
    }

    /** `resetForm()`: create mode, an empty name and status `'A'`. */
    method ResetForm()
      modifies this`isEditing, this`editingId, this`categoryForm
      ensures !isEditing && editingId == Null
      ensures categoryForm == ResetCategoryForm(old(categoryForm))
    {
      isEditing := false;
      editingId := Null;
      categoryForm := ResetCategoryForm(categoryForm);
    }

    /** `onSearch()`: reloads without going back to the first page. */
    method OnSearch()
      modifies this`isLoading, this`requests
      ensures currentPage == old(currentPage)
      ensures isLoading && requests == old(requests) + [Params()]
    {
      LoadCategories();
    }

    /** `onPageChange(page)`: any page is taken as it is, without a range check. */
    method OnPageChange(page: int)
      modifies this`currentPage, this`isLoading, this`requests
      ensures currentPage == page && isLoading && requests == old(requests) + [Params()]
    {
      currentPage := page;
      LoadCategories();
    }

    /** `onPageSizeChange()`, after the page size control changed `pageSize`. */
    method OnPageSizeChange()
      modifies this`currentPage, this`isLoading, this`requests
      ensures currentPage == 0 && isLoading && requests == old(requests) + [Params()]
    {
      currentPage := 0;
      LoadCategories();
    }

    /** `getPageNumbers()`. */
    method GetPageNumbers() returns (pageNumbers: seq<int>)
      ensures pageNumbers == PageWindow(totalPages, currentPage)
    {
      pageNumbers := BuildPageNumbers(totalPages, currentPage);
    }
  }
}
