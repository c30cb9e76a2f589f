# Restaurant back office: catalog screen, product editor and route table

This project models, in Dafny, the parts of a React back office for a
restaurant that carry behaviour of their own:

- the **product catalog screen** (`ProductsPage`): the list of menu items it
  loads, the category list and the filtered rows it derives from that list,
  and its handlers — loading, opening the editor on a product or on a new
  one, closing it, saving (edit branch and create branch), the single-slot
  delete confirmation and deleting;
- the **product editor modal** (`ProductModal`): its form state (a partial
  menu item), how that state is initialised from the product being edited,
  and the handlers that add, remove and update ingredient lines, pick a
  supply, pick a category, edit the plain fields and submit;
- the **route table** (`AppRoutes`): the role lists, the path → screen and
  path → allowed-roles table, the public-only guard of the login page, the
  root redirect and the not-found fallback.

Files and modules, leaf first:

| file | module | content |
|---|---|---|
| wrappers.dfy | `Wrappers` | `Option`, for `T \| undefined` and for absent properties |
| types.dfy | `Types` | `Role`, `Category`, `Supply`, `ProductDetail`, `MenuItem` |
| strings.dfy | `Strings` | ASCII `toLowerCase`, `includes`, decimal `toString` and `parseInt` |
| sequences.dfy | `Sequences` | `filter`, `splice(start, 1)`, `Array.from(new Set(xs))` |
| drafts.dfy | `Drafts` | `Partial<MenuItem>` as a record of options |
| product_form.dfy | `ProductModal` | form initialisation and edits (functions), class `ProductForm` |
| products_page.dfy | `ProductsPage` | derived views and save/delete (functions), class `CatalogPage` |
| app_routes.dfy | `AppRoutes` | the route table and `PublicRoute` |

The pure derivations and edits are functions with contracts and lemmas. The
screen's state is the class `CatalogPage`, with one field per `useState` of
the page, and the modal's form state is the class `ProductForm`, which the
page owns. Each handler is a method whose `ensures` gives the whole new
state as a function of the old one. Four client methods at the end of
`ProductsPage` each say what one sequence of interactions does:

- two delete requests, then a confirmation;
- opening a product and saving it unchanged;
- a failed load;
- creating a product, then opening the new-product form again.

Inputs that come from outside the code are method parameters. These are the
value of `Date.now()` at a save (`stamp`), the outcome of the catalog request
(`FetchOutcome`) and the session's `isLoading`/`isAuthenticated` flags.

Behaviour of the code that the model makes explicit:

- The modal's initialisation effect depends only on the `product` prop. So it
  does not run when "new product" is opened while no product was selected.
  After a create, or after a cancelled create, the next new-product form still
  holds the previous draft (`ProductsPage.NewFormKeepsLastDraft`).
- `updateIngredient` with a known field and an index that names no line would
  dereference `undefined` and throw. The model returns failure and leaves the
  form as it was. Any other field name creates `detalles: []` when the form
  had no lines, but changes no line.
- The category selector's option values are the 1-based positions of the
  category names. So `categoriaId` and `categoria.id` get that position, not
  the id of any category (`ProductModal.ChooseCategory`).
- A failed load keeps the previous list; nothing clears it. The list is
  loaded only on mount, when it is still empty.
- While a product is selected, the form always holds every property of a
  product, under the selected product's id (`CatalogPage.Valid`). So saving
  in edit mode replaces each entry with that id by the form's product.

## Model

| member | source | states |
|---|---|---|
| Strings.LowerChar | src/pages/ProductsPage.tsx:45-46 | lower-casing yields no capital, keeps non-capitals and maps a capital 32 code points up |
| Strings.Lower | src/pages/ProductsPage.tsx:45-46 | `toLowerCase` keeps the length, works character by character, and leaves no capital letter |
| Strings.LowerIdempotent | src/pages/ProductsPage.tsx:45-46 | lower-casing twice is lower-casing once |
| Strings.IncludesEmpty | src/pages/ProductsPage.tsx:45-46 | the empty search term is included in every name |
| Strings.IncludesIffOccurs | src/pages/ProductsPage.tsx:45-46 | the recursive `includes` holds exactly when the needle occurs at some position of the hay |
| Strings.Decimal | src/pages/ProductsPage.tsx:68 | `toString` of a non-negative integer is all digits, at least one, with no leading zero |
| Strings.LeadingDigits | src/components/products/ProductModal.tsx:180 | the longest digit prefix is a prefix, all digits, followed by a non-digit or the end |
| Strings.ParseInt | src/components/products/ProductModal.tsx:180 | `parseInt` gives NaN exactly when the text does not start with a digit |
| Strings.ParseDecimal | src/components/products/ProductModal.tsx:180 | `parseInt` reads back the number `toString` wrote |
| Strings.DecimalInjective | src/pages/ProductsPage.tsx:68 | distinct time stamps give distinct product ids |
| Sequences.Filter | src/pages/ProductsPage.tsx:44-49 | `filter` keeps exactly the satisfying elements, each as often as it occurs, as an order-preserving subsequence, and is the identity iff every element satisfies |
| Sequences.FilterConjunction | src/pages/ProductsPage.tsx:44-49 | filtering by two conditions in turn equals filtering once by their conjunction |
| Sequences.SpliceStart | src/components/products/ProductModal.tsx:98 | `splice` counts a negative start back from the end, stopping at 0, and clamps a start past the end |
| Sequences.Splice | src/components/products/ProductModal.tsx:98 | `splice(start, 1)` removes the element at the start position and shifts the rest down, or changes nothing when there is none |
| Sequences.SpliceTwice | src/components/products/ProductModal.tsx:98 | splicing twice at index i removes the elements originally at i and i+1 |
| Sequences.FirstIndex | src/pages/ProductsPage.tsx:42 | the position found holds the element and no earlier position does |
| Sequences.FirstIndexAppend | src/pages/ProductsPage.tsx:42 | appending keeps every earlier first occurrence where it was |
| Sequences.Distinct | src/pages/ProductsPage.tsx:42 | `Array.from(new Set(s))` has no duplicates, holds exactly the elements of s, in order of first appearance |
| Sequences.FirstIndexOrder | src/pages/ProductsPage.tsx:42 | an insertion into the set keeps the first-appearance order |
| Drafts.AsDraft | src/components/products/ProductModal.tsx:62 | a whole product seen as a partial one has every property present |
| Drafts.Value | src/components/products/ProductModal.tsx:62 | a complete partial product is the partial view of the product it describes |
| Drafts.ValueOfAsDraft | src/components/products/ProductModal.tsx:62 | seeing a product as a partial one loses nothing |
| ProductModal.InitialDraft | src/components/products/ProductModal.tsx:60-74 | with a product the form is exactly that product; without, it has empty texts, price and time 0, no lines, and no id, category or images |
| ProductModal.AddLine | src/components/products/ProductModal.tsx:84-94 | one more line; earlier lines unchanged; the last is an `INSUMO` line of quantity 0 on the first supply; no other property changes |
| ProductModal.RemoveLine | src/components/products/ProductModal.tsx:96-103 | an index in range removes that line; a negative index removes the line counted back from the end (the first when it reaches past the start); an index past the end changes no line; the lines are present afterwards and no other property changes |
| ProductModal.RemoveLineTwice | src/components/products/ProductModal.tsx:96-103 | removing twice at a stale index removes that line and the one after it |
| ProductModal.UpdateLine | src/components/products/ProductModal.tsx:105-116 | "supply" sets only the item of the line, "cantidad" only its quantity; length and other lines kept; another field name changes no line; a known field on a missing line is the thrown error |
| ProductModal.FindSupply | src/components/products/ProductModal.tsx:240-243 | the selector finds a listed supply with the chosen id, and nothing exactly when no listed supply has it |
| ProductModal.CategoryName | src/components/products/ProductModal.tsx:180 | the stored category name is empty or one of the offered categories |
| ProductModal.CategoryOfOption | src/components/products/ProductModal.tsx:175-190 | the k-th option (value k, 1-based) stores the k-th category's name |
| ProductModal.CategoryOfPlaceholder | src/components/products/ProductModal.tsx:185 | the placeholder option stores the empty name |
| ProductModal.ChooseCategory | src/components/products/ProductModal.tsx:175-182 | `categoriaId` and `categoria.id` become the option value, `categoria.denominacion` its looked-up name, nothing else changes |
| ProductModal.ApplyEdit | src/components/products/ProductModal.tsx:136-213 | each plain input sets its one property and leaves id, category, images and lines alone |
| ProductModal.Render | src/components/products/ProductModal.tsx:76-124 | the modal renders iff it is open, binds the form, and titles itself by edit or create mode |
| ProductModal.ProductForm.constructor | src/components/products/ProductModal.tsx:50-58 | the form starts as the empty new-product form |
| ProductModal.ProductForm.Reset | src/components/products/ProductModal.tsx:60-74 | the initialisation effect sets the form to the initial draft of the product prop |
| ProductModal.ProductForm.AddIngredient | src/components/products/ProductModal.tsx:84-94 | the form becomes `AddLine` of the old form |
| ProductModal.ProductForm.RemoveIngredient | src/components/products/ProductModal.tsx:96-103 | the form becomes `RemoveLine` of the old form |
| ProductModal.ProductForm.UpdateIngredient | src/components/products/ProductModal.tsx:105-116 | reports whether the update went through; on success the form is the updated one, on the thrown error it is unchanged |
| ProductModal.ProductForm.SelectCategory | src/components/products/ProductModal.tsx:175-182 | the form becomes `ChooseCategory` of the old form |
| ProductModal.ProductForm.Edit | src/components/products/ProductModal.tsx:136-213 | the form becomes `ApplyEdit` of the old form |
| ProductsPage.CategoryNames | src/pages/ProductsPage.tsx:42 | one category name per product, in list order |
| ProductsPage.Categories | src/pages/ProductsPage.tsx:42 | the category list has no duplicates, has exactly the loaded products' category names, ordered by each name's first product |
| ProductsPage.FilteredProducts | src/pages/ProductsPage.tsx:44-49 | the rows are an order-preserving subsequence of the products and are exactly those matching the term in name or description, ignoring case, and the category, each matching record as often as it occurs |
| ProductsPage.NoFilterShowsAll | src/pages/ProductsPage.tsx:45-47 | an empty term and no category show every product |
| ProductsPage.FilterIsConjunctive | src/pages/ProductsPage.tsx:44-49 | the rows equal filtering by the term and then by the category |
| ProductsPage.AllCategoriesFiltersByTermOnly | src/pages/ProductsPage.tsx:47 | with no category selected only the term decides |
| ProductsPage.RemoveById | src/pages/ProductsPage.tsx:57 | no product with the id remains; all others remain in order, each as often as before; a missing id changes nothing |
| ProductsPage.Merge | src/pages/ProductsPage.tsx:64 | a complete form replaces the product by the form's product; an empty object keeps the product |
| ProductsPage.MergeIdempotent | src/pages/ProductsPage.tsx:64 | merging the same data twice is merging it once |
| ProductsPage.ReplaceById | src/pages/ProductsPage.tsx:62-65 | same length; entries with the edited id become the merge, all others are unchanged |
| ProductsPage.SaveUnchangedKeepsList | src/pages/ProductsPage.tsx:62-65 | saving a product's unchanged form leaves the list as it was |
| ProductsPage.NewProduct | src/pages/ProductsPage.tsx:67-78 | the new product's id is the decimal stamp and every other property is the given one or its default (`''`, `0`, `[]`, the empty category) |
| ProductsPage.NewFromCompleteDraft | src/pages/ProductsPage.tsx:67-78 | creating from a whole product yields that product under the new id |
| ProductsPage.NewFromEmptyForm | src/pages/ProductsPage.tsx:67-78 | creating from the untouched new-product form yields the blank product under the new id |
| ProductsPage.Saved | src/pages/ProductsPage.tsx:61-81 | with a selection the edit branch; otherwise the list with exactly one new product appended and its prefix unchanged |
| ProductsPage.CatalogPage.constructor | src/pages/ProductsPage.tsx:18-24 | the screen mounts empty, loading, with the modal closed and no selection or pending delete |
| ProductsPage.CatalogPage.CategoryList | src/pages/ProductsPage.tsx:42 | the category list of the current products |
| ProductsPage.CatalogPage.Rows | src/pages/ProductsPage.tsx:83-93 | the spinner exactly while loading, the filtered rows otherwise |
| ProductsPage.CatalogPage.BeginLoad | src/pages/ProductsPage.tsx:30-32 | loading is on, nothing else changes |
| ProductsPage.CatalogPage.FinishLoad | src/pages/ProductsPage.tsx:33-40 | loading is off whatever the outcome; the list is replaced on success and unchanged on failure |
| ProductsPage.CatalogPage.SetSearchTerm | src/pages/ProductsPage.tsx:130 | only the search term changes |
| ProductsPage.CatalogPage.SetSelectedCategory | src/pages/ProductsPage.tsx:137 | only the selected category changes |
| ProductsPage.CatalogPage.Select | src/pages/ProductsPage.tsx:23 | the selection is set, and the form is re-initialised exactly when the selection changes |
| ProductsPage.CatalogPage.HandleEdit | src/pages/ProductsPage.tsx:51-54 | the modal opens on the product, with the form a copy of it |
| ProductsPage.CatalogPage.HandleNew | src/pages/ProductsPage.tsx:109-112 | the modal opens with nothing selected; the form is reset only if a product was selected |
| ProductsPage.CatalogPage.CloseModal | src/pages/ProductsPage.tsx:234-237 | the modal closes and the selection is cleared |
| ProductsPage.CatalogPage.RequestDelete | src/pages/ProductsPage.tsx:219 | the pending slot holds exactly this id, replacing any other; nothing else changes |
| ProductsPage.CatalogPage.CancelDelete | src/pages/ProductsPage.tsx:210 | the pending slot is cleared and the list untouched |
| ProductsPage.CatalogPage.HandleDelete | src/pages/ProductsPage.tsx:56-59 | the list loses the products with the id and the pending slot is cleared |
| ProductsPage.CatalogPage.HandleSave | src/pages/ProductsPage.tsx:61-81 | the list becomes `Saved` of the old list, the selection, the data and the stamp |
| ProductsPage.CatalogPage.SubmitForm | src/components/products/ProductModal.tsx:78-82 | the current form is saved once, then the modal is closed; in edit mode every entry with the selected id becomes the form's product, which keeps that id, and every other entry is unchanged |
| ProductsPage.CatalogPage.ModalAction | src/components/products/ProductModal.tsx:76 | while loading or with the modal closed no handler runs and nothing changes; otherwise each action has its handler's effect |
| ProductsPage.LastDeleteRequestWins | src/pages/ProductsPage.tsx:205-219 | two delete requests and a confirmation remove only the second request's products |
| ProductsPage.EditUnchangedKeepsList | src/pages/ProductsPage.tsx:51-65 | opening a product and saving without changes leaves the list as it was |
| ProductsPage.FailedLoadShowsNoRows | src/pages/ProductsPage.tsx:30-40 | a failed load on mount shows an empty table, not the spinner |
| ProductsPage.NewFormKeepsLastDraft | src/pages/ProductsPage.tsx:108-112 | after creating a product, reopening the new-product form still shows its name |
| AppRoutes.Route | src/routes/AppRoutes.tsx:50-134 | a path is protected iff it is one of the nine protected paths, and is not found iff it is in neither list |
| AppRoutes.RoleNamesDistinct | src/types/index.ts:12 | the four roles have four distinct names |
| AppRoutes.AllRolesComplete | src/routes/AppRoutes.tsx:25-29 | `ALL_ROLES` names every role once and nothing else; every other role list is part of it |
| AppRoutes.SettingsAdminOnly | src/routes/AppRoutes.tsx:122-129 | `/settings` admits exactly the administrator |
| AppRoutes.DashboardAndOrdersForAll | src/routes/AppRoutes.tsx:58-89 | `/dashboard` and `/orders` admit every role |
| AppRoutes.DeliveryPaths | src/routes/AppRoutes.tsx:58-129 | delivery is admitted exactly to `/dashboard`, `/orders` and `/delivery` |
| AppRoutes.EmployeePaths | src/routes/AppRoutes.tsx:58-129 | employee is admitted exactly to `/dashboard`, `/customers` and `/orders` |
| AppRoutes.ManagerPaths | src/routes/AppRoutes.tsx:58-129 | manager is admitted to every protected path but `/settings` |
| AppRoutes.AdminEverywhere | src/routes/AppRoutes.tsx:58-129 | admin is admitted exactly to every protected path |
| AppRoutes.RootAndFallback | src/routes/AppRoutes.tsx:132-133 | `/` redirects to `/dashboard`; any path outside the table is not found |
| AppRoutes.PublicRoute | src/routes/AppRoutes.tsx:31-36 | loading shows the loading text even when signed in; signed in and resolved navigates to `/dashboard`; otherwise the page renders |
| AppRoutes.LoginSendsSignedInToDashboard | src/routes/AppRoutes.tsx:53 | `/login` is the only public-only route and sends a signed-in visitor to the dashboard once resolved |

## Left out

- Rendering: JSX, styling, icons and table layout. The model keeps only what decides the state: the spinner, the modal and its title.
- HTTP through the API client and the token getter registered with it. The outcome of the catalog request is an input (`FetchOutcome`).
- The identity-provider wrapper component and its environment configuration. The session flags are inputs of `AppRoutes.PublicRoute`.
- `ProtectedRoute`: its source is not part of this model. `AppRoutes.Admits` says only which role names a path's table entry lists.
- Path matching by the router library: case-insensitive matching and trailing slashes. The model compares paths exactly.
- Number parsing and formatting: prices are exact reals and quantities and minutes are integers, so `NaN` is left out. `parseInt` covers only text that starts with decimal digits; leading blanks, signs and hexadecimal prefixes are left out. `toFixed(2)` is display only.
- Strings.LowerChar: lower-cases the ASCII capitals only, not the full Unicode mapping of `toLowerCase`.
- ProductsPage.Merge: its contract covers only a complete form and the empty object. The property-by-property override for any other partial record is given by its body. The screen only merges complete forms (`CatalogPage.Valid`, `CatalogPage.SubmitForm`).
- The browser's `required` validation of the form before its submit event.
- Effect scheduling: loading is two steps, `BeginLoad` and `FinishLoad`. The modal's remount when the spinner goes away is modelled at `FinishLoad`.
- Concurrent or overlapping fetches.
- `console.error` on a failed fetch.
- The identity of `Date.now()`: the stamp is a parameter.
- Object sharing: `updateIngredient` assigns into line objects that the copied array shares with the form state and, when editing, with the catalog's product. The model uses value semantics, so that aliasing is not captured.
- ProductsPage.CatalogPage.Select: compares the selected product by value, while React compares the prop by reference. The two agree on every reachable sequence of clicks, because the modal covers the table while it is open.
- The legacy compatibility properties of `MenuItem` (`name`, `price`, `category`, `preparationTime`, `availability`, `status`). They are not used by the modelled code.
- Whether the modal's "Cancelar" button submits the form: it is a `Button` component inside the form, and that component's default button type is not part of this model. The model treats it as `onClose`.
