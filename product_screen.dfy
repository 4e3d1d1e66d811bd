/** The product screen (`product`): a paged list of products beside a form
    that creates a product or, after `editProduct`, updates one. */
module ProductScreen {
  import opened Values
  import opened Paging

  /** `{ ...searchForm.value, size, page }`: the paging fields win over any
      form field of the same name. */
  function SearchParams(searchForm: Record, size: int, page: int): (r: Record)
    ensures r.Keys == searchForm.Keys + {"size", "page"}
    ensures r["size"] == IntValue(size) && r["page"] == IntValue(page)
    ensures forall k :: k in searchForm && k != "size" && k != "page" ==> r[k] == searchForm[k]
  {
    Spread(searchForm, map["size" := IntValue(size), "page" := IntValue(page)])
  }

  /** The product form as `initializeForms` builds it. */
  function InitialForm(): Record
  {
    map["name" := Str(""), "categoryId" := Str(""), "description" := Str(""),
        "minimumStock" := Num(0.0), "status" := Str("A")]
  }

  /** `productForm.valid`: every control is `Validators.required`, and the
      minimum stock also carries `Validators.min(0)`. */
  predicate FormValid(form: Record)
    ensures FormValid(form) ==> "minimumStock" in form && !(form["minimumStock"].Num? && form["minimumStock"].x < 0.0)
    ensures FormValid(form) ==> "name" in form && "categoryId" in form && "description" in form && "status" in form
  {
    IsPresent(Field(form, "name")) && IsPresent(Field(form, "categoryId"))
    && IsPresent(Field(form, "description")) && IsPresent(Field(form, "minimumStock"))
    && !BelowMin(Field(form, "minimumStock"), 0.0) && IsPresent(Field(form, "status"))
  }

  /** `productForm.reset({ status: 'A' })`. */
  function ResetProductForm(form: Record): (r: Record)
    ensures r.Keys == form.Keys
    ensures "status" in form ==> r["status"] == Str("A")
    ensures forall k :: k in form && k != "status" ==> r[k] == Null
  {
    ResetTo(form, "status", Str("A"))
  }

  /** `productForm.patchValue({ name, categoryId, description, minimumStock, status })`. */
  function PatchProductForm(form: Record, name: Value, categoryId: Value, description: Value,
                            minimumStock: Value, status: Value): (r: Record)
    ensures r.Keys == form.Keys + {"name", "categoryId", "description", "minimumStock", "status"}
    ensures r["name"] == name && r["categoryId"] == categoryId && r["description"] == description
    ensures r["minimumStock"] == minimumStock && r["status"] == status
  {
    Spread(form, map["name" := name, "categoryId" := categoryId, "description" := description,
                     "minimumStock" := minimumStock, "status" := status])
  }

  /** A freshly built or freshly reset form is never submitted. A zero
      minimum stock passes both of its validators. */
  lemma BlankFormNotSubmitted(form: Record)
    ensures !FormValid(InitialForm())
    ensures "name" in form ==> !FormValid(ResetProductForm(form))
    ensures IsPresent(Num(0.0)) && !BelowMin(Num(0.0), 0.0)
  {
  }

  /** After `editProduct` the form is submittable exactly when every field of
      the product is present and its minimum stock is not negative. */
  lemma EditedFormValid(form: Record, name: Value, categoryId: Value, description: Value,
                        minimumStock: Value, status: Value)
    ensures FormValid(PatchProductForm(form, name, categoryId, description, minimumStock, status))
            <==> IsPresent(name) && IsPresent(categoryId) && IsPresent(description)
                 && IsPresent(minimumStock) && !BelowMin(minimumStock, 0.0) && IsPresent(status)
  {
  }

  class ProductScreen {
    var products: seq<Record>
    var productForm: Record
    var searchForm: Record
    var isLoading: bool
    var isEditing: bool
    /** `editingId`: the id of the product being edited, `undefined` (here
        `null`) otherwise. */
    var editingId: Value
    var currentPage: int
    var pageSize: int
    var totalPages: int
    var totalElements: int
    var startIndex: int
    var endIndex: int
    /** Toasts, oldest first. */
    var notifications: seq<Notice>
    /** The parameters of each `searchProducts` call, oldest first. */
    var requests: seq<Record>
    /** The create and update calls, oldest first. */
    var mutations: seq<Mutation>

    /** The parameters the next load sends. */
    function Params(): Record
      reads this
    {
      SearchParams(searchForm, pageSize, currentPage)
    }

    /** An empty form in create mode, the first page of ten, nothing loaded. */
    constructor ()
      ensures products == [] && productForm == InitialForm()
      ensures searchForm == map["search" := Str(""), "categoryId" := Str(""), "status" := Str("A")]
      ensures !isLoading && !isEditing && editingId == Null
      ensures currentPage == 0 && pageSize == 10
      ensures totalPages == 0 && totalElements == 0 && startIndex == 0 && endIndex == 0
      ensures notifications == [] && requests == [] && mutations == []
    {
      products := [];
      productForm := InitialForm();
      searchForm := map["search" := Str(""), "categoryId" := Str(""), "status" := Str("A")];
      isLoading := false;
      isEditing := false;
      editingId := Null;
      currentPage := 0;
      pageSize := 10;
      totalPages := 0;
      totalElements := 0;
      startIndex := 0;
      endIndex := 0;
      notifications := [];
      requests := [];
      mutations := [];
    }

    /** `ngOnInit()`: the first load of products (the category list it also
        loads for the form's dropdown is not part of this model). */
    method NgOnInit()
      modifies this`isLoading, this`requests
      ensures isLoading && requests == old(requests) + [Params()]
    {
      LoadProducts();
    }

    /** `loadProducts()`: ask for the current page. */
    method LoadProducts()
      modifies this`isLoading, this`requests
      ensures isLoading && requests == old(requests) + [Params()]
    {
      isLoading := true;
      requests := requests + [SearchParams(searchForm, pageSize, currentPage)];
    }

    /** `next` of `searchProducts`: the page is taken as it is, with
        `endIndex` written as `min((currentPage + 1) * pageSize, totalElements)`. */
    method OnLoadResponse(data: PageData)
      modifies this`products, this`totalPages, this`totalElements, this`startIndex, this`endIndex, this`isLoading
      ensures products == data.content && totalPages == data.totalPages && totalElements == data.totalElements
      ensures startIndex == StartIndex(currentPage, pageSize)
      ensures endIndex == EndIndex(currentPage, pageSize, totalElements)
      ensures endIndex - startIndex <= pageSize && endIndex <= totalElements
      ensures !isLoading
    {
      products := data.content;
      totalPages := data.totalPages;
      totalElements := data.totalElements;
      startIndex := currentPage * pageSize;
      endIndex := Min((currentPage + 1) * pageSize, totalElements);
      EndIndexSpellings(currentPage, pageSize, totalElements);
      IndexBounds(currentPage, pageSize, totalElements);
      isLoading := false;
    }

    /** `error` of `searchProducts`. */
    method OnLoadError()
      modifies this`notifications, this`isLoading
      ensures notifications == old(notifications) + [Failure("Failed to load products")] && !isLoading
    {
      notifications := notifications + [Failure("Failed to load products")];
      isLoading := false;
    }

    /** `onSubmit()`: a valid form is sent to `updateProduct(editingId, ...)`
        in edit mode and to `createProduct` otherwise; an invalid form sends
        nothing. */
    method OnSubmit()
      modifies this`isLoading, this`mutations
      ensures FormValid(productForm) && isEditing ==>
                mutations == old(mutations) + [Update(editingId, productForm)] && isLoading
      ensures FormValid(productForm) && !isEditing ==>
                mutations == old(mutations) + [Create(productForm)] && isLoading
      ensures !FormValid(productForm) ==> mutations == old(mutations) && isLoading == old(isLoading)
    {
      if FormValid(productForm) {
        isLoading := true;
        if isEditing {
          mutations := mutations + [Update(editingId, productForm)];
        } else {
          mutations := mutations + [Create(productForm)];
        }
      }
    }

    /** `next` of the create or update call: the server's message as a toast,
        the form back in create mode, and the list reloaded. */
    method OnSaveResponse(message: string)
      modifies this`notifications, this`isEditing, this`editingId, this`productForm, this`isLoading, this`requests
      ensures notifications == old(notifications) + [Success(message)]
      ensures !isEditing && editingId == Null && productForm == ResetProductForm(old(productForm))
      ensures isLoading && requests == old(requests) + [Params()]
    {
      notifications := notifications + [Success(message)];
      ResetForm();
      LoadProducts();
    }

    /** `error` of the create or update call: the server's message, or a fallback. */
    method OnSaveError(message: Option<string>)
      modifies this`notifications, this`isLoading
      ensures notifications == old(notifications) + [Failure(ErrorText(message, "Operation failed"))]
      ensures !isLoading
    {
      notifications := notifications + [Failure(ErrorText(message, "Operation failed"))];
      isLoading := false;
    }

    /** `editProduct(product)`: edit mode for that product, its fields copied
        into the form. */
    method EditProduct(id: Value, name: Value, categoryId: Value, description: Value,
                       minimumStock: Value, status: Value)
      modifies this`isEditing, this`editingId, this`productForm
      ensures isEditing && editingId == id
      ensures productForm == PatchProductForm(old(productForm), name, categoryId, description, minimumStock, status)
    {
      isEditing := true;
      editingId := id;
      productForm := PatchProductForm(productForm, name, categoryId, description, minimumStock, status);
    }

    /** `resetForm()`: create mode, every control `null` except status `'A'`. */
    method ResetForm()
      modifies this`isEditing, this`editingId, this`productForm
      ensures !isEditing && editingId == Null
      ensures productForm == ResetProductForm(old(productForm))
    {
      isEditing := false;
      editingId := Null;
      productForm := ResetProductForm(productForm);
    }

    /** `onSearch()`: back to the first page. */
    method OnSearch()
      modifies this`currentPage, this`isLoading, this`requests
      ensures currentPage == 0 && isLoading && requests == old(requests) + [Params()]
    {
      currentPage := 0;
      LoadProducts();
    }

    /** `onPageChange(page)`: any page is taken as it is, without a range check. */
    method OnPageChange(page: int)
      modifies this`currentPage, this`isLoading, this`requests
      ensures currentPage == page && isLoading && requests == old(requests) + [Params()]
    {
      currentPage := page;
      LoadProducts();
    }

    /** `onPageSizeChange()`, after the page size control changed `pageSize`. */
    method OnPageSizeChange()
      modifies this`currentPage, this`isLoading, this`requests
      ensures currentPage == 0 && isLoading && requests == old(requests) + [Params()]
    {
      currentPage := 0;
      LoadProducts();
    }

    /** `getPageNumbers()`. */
    method GetPageNumbers() returns (pageNumbers: seq<int>)
      ensures pageNumbers == PageWindow(totalPages, currentPage)
    {
      pageNumbers := BuildPageNumbers(totalPages, currentPage);
    }
  }
}
