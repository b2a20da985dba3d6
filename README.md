# MayorSearch front end — a Dafny model

MayorSearch is a search portal for academic resources. Its React front end has:

- three search bars: the general bar, and two bars pinned to a subject ("Teoria de grafos" and "Analisis numerico");
- the pages that turn a bar's payload into search parameters, sort the results by title, and filter them locally by a search box;
- the resource manager for teachers and administrators;
- the authors page;
- the favourite star on a resource card;
- the appearance settings (theme, font size, contrast);
- the breadcrumb trail, the navigation sidebar, and the profile page.

This project models that logic in Dafny and proves its properties. Each source file is one module:

| module | file | source |
|---|---|---|
| `Wrappers`, `Text`, `Catalog`, `Collation`, `Facets` | wrappers.dfy, text.dfy, catalog.dfy, collation.dfy, facets.dfy | shared pieces: optional values, ASCII string operations, the search parameter record, stable sorting by a comparator, the local title filter, facet toggling |
| `SearchBar` | searchbar.dfy | frontend/src/components/SearchBar.tsx |
| `SubjectSearchBars` | subjectbars.dfy | frontend/src/components/SearchBarTeoriaGrafos.tsx and frontend/src/components/SearchBarAnalisisNumerico.tsx (the same code with a different pinned tag) |
| `Home` | home.dfy | frontend/src/pages/Home.tsx |
| `AnalisisNumericoPage` | analisis_numerico.dfy | frontend/src/pages/AnalisisNumerico.tsx |
| `RecursosAnalisis` | recursos_analisis.dfy | frontend/src/pages/RecursosAnalisisNumerico.tsx |
| `RecursoCrud` | recurso_crud.dfy | frontend/src/pages/RecursoCRUD.tsx |
| `Autores` | autores.dfy | frontend/src/pages/Autores.tsx |
| `ResourceCard` | resource_card.dfy | frontend/src/components/ResourceCard.tsx |
| `Theme` | theme.dfy | frontend/src/context/ThemeContext.tsx |
| `Breadcrumbs` | breadcrumbs.dfy | frontend/src/components/Breadcrumbs.tsx |
| `Sidebar` | sidebar.dfy | frontend/src/components/Sidebar.tsx |
| `Profile` | profile.dfy | frontend/src/pages/Profile.tsx |

Each component's state becomes a class:

- Its `useState` fields become class fields.
- Each event handler becomes a method that states the component's whole new state.

Each React effect is modelled as running to completion right after the handler that changed its dependencies.

- The local filter effects of the pages are `ApplyFilter` methods, and `SetBusqueda`/`Load` call them.
- The persisting effect of the theme provider is `Sync`.

Pure code becomes functions with lemmas about them. This covers:

- parameter mapping;
- tag splitting and joining;
- the language map;
- the breadcrumb trail;
- the navigation list;
- the save payload.

How the outside world enters the model:

- **Awaited service calls.** These are `buscarRecursos`, the favourite service, the resource and author services, and the profile requests. Each becomes an `Outcome` parameter, either `Success(value)` or `Failure`. A method returns the request it would send.
- **`localeCompare(..., "es", {sensitivity: "base"})`.** This becomes a comparator parameter `le`. Sortedness is proved whenever `le` is a total preorder.
- **`Array.prototype.sort`.** This is modelled by `Collation.SortByKey`, an insertion sort. Its result is a permutation of the input (`SortPermutes`). It is ordered whenever the comparator is a total preorder (`SortSorted`). Input that is already ordered comes back unchanged (`SortOrderedUnchanged`), so ties in already ordered input keep their order. Because an element is inserted behind every element it may follow, the sort is stable by construction. Stability for unordered input is not proved.
- **In-place sorts.** The in-place `data.sort` is `Collation.SortInPlace`, a method on an `array` that is proved equal to `SortByKey`.
- **Dates.** Dates are day numbers (`Catalog.Day`).
- **`localStorage`.** This is a `map<string, string>`.

The two subject bars are copies of one another in the source, so they are one class `SubjectSearchBars.SubjectBar` here. Its constant `pinned` tag is fixed by one of two constructors.

Three facts about the code that a reader might expect otherwise:

- No handler fences out stale responses. Each awaited result is written directly, so a later `Success` simply overwrites the state.
- The favourite star does not change optimistically before the call. It changes only after the call succeeds.
- The subject bars do not deduplicate the pinned tag. A payload whose facet tags already contain it still gets it appended.

Two behaviours of the code are modelled as written:

- **The general bar sends a stale date range.** After "Aplicar" stores the date range in `filters`, every later submit spreads `filters` and sends that stored range. This happens even when the date pickers no longer hold a complete range (`SearchBar.AppliedRangeOutlivesClearedEnd` shows a concrete case).
- **The home page keeps its sort direction.** A new search returns results sorted A-Z but leaves `ordenAsc` as it was. The subject page does reset it.

## Model

| member | source | states |
|---|---|---|
| Facets.Toggle | frontend/src/components/SearchBar.tsx:46 | a facet click stores the clicked value unless the field already held it, in which case the field becomes empty |
| Facets.ToggleTwice | frontend/src/components/SearchBar.tsx:46 | from an empty field or one holding the value, two clicks on the same value restore the field |
| Facets.TagJoin | frontend/src/components/SearchBar.tsx:50-56 | defines the tag string: the non-empty values, comma-joined |
| Facets.TagJoinEmpty | frontend/src/components/SearchBar.tsx:50-56 | the comma-joined non-empty facet values are empty exactly when every facet value is empty |
| Facets.JoinNonEmptyParts | frontend/src/components/SearchBar.tsx:50-56 | joining at least one non-empty piece by commas gives a non-empty string |
| Facets.EndAfterStartChosen | frontend/src/components/SearchBar.tsx:246-249 | choosing a start date clears the end date exactly when an end is set and the new start is strictly later; otherwise the end is kept |
| Facets.StartNeverAfterEnd | frontend/src/components/SearchBar.tsx:246-249 | after a start date is chosen, any end date that survives is not before it |
| SearchBar.Tags | frontend/src/components/SearchBar.tsx:50-56 | defines the general bar's tags: asignatura, tipo and nivel passed to the tag join |
| SearchBar.TagsAgree | frontend/src/components/SearchBar.tsx:58 | defines the invariant that `etiquetas` equals the tags of the three facets |
| SearchBar.ClickFacet | frontend/src/components/SearchBar.tsx:42-62 | the clicked field toggles, every other facet field and the dates are unchanged, and `etiquetas` is recomputed from asignatura, tipo and nivel |
| SearchBar.ClickTwiceRestores | frontend/src/components/SearchBar.tsx:42-62 | two clicks on the same value restore the whole filter state when the field was empty or held that value |
| SearchBar.IdiomaClickKeepsTags | frontend/src/components/SearchBar.tsx:50-58 | a language click never changes `etiquetas` |
| SearchBar.TwoFacetsExample | frontend/src/components/SearchBar.tsx:50-58 | clicking tipo "Libro" then nivel "Avanzado" from empty filters gives `etiquetas` "Libro,Avanzado" |
| SearchBar.Spread | frontend/src/components/SearchBar.tsx:69-72 | the submitted object carries `q` and every filter field, nothing else |
| SearchBar.GeneralBar.constructor | frontend/src/components/SearchBar.tsx:25-39 | the bar starts with empty text and filters, no dates and the calendar closed |
| SearchBar.GeneralBar.SetQ | frontend/src/components/SearchBar.tsx:144 | typing replaces the text only |
| SearchBar.GeneralBar.FilterClick | frontend/src/components/SearchBar.tsx:42-62 | the filters become `ClickFacet` of the old ones; the tags invariant is kept |
| SearchBar.GeneralBar.ToggleCalendar | frontend/src/components/SearchBar.tsx:227 | the calendar button flips the calendar flag only |
| SearchBar.GeneralBar.ChooseStart | frontend/src/components/SearchBar.tsx:246-249 | the start picker stores the date and clears a set end date that is earlier |
| SearchBar.GeneralBar.ChooseEnd | frontend/src/components/SearchBar.tsx:259 | the end picker stores the date unconditionally |
| SearchBar.GeneralBar.Submit | frontend/src/components/SearchBar.tsx:65-81 | the parameters are the trimmed text plus all filters; with both pickers set their dates are sent, otherwise the dates stored in the filters are |
| SearchBar.GeneralBar.Aplicar | frontend/src/components/SearchBar.tsx:272-296 | a search is sent only when both dates are set, and it records `fecha` "rango" and the range in the filters; the calendar always closes |
| SearchBar.AppliedRangeOutlivesClearedEnd | frontend/src/components/SearchBar.tsx:69-78 | after applying days 10 to 20 and then choosing start 25, the pickers show 25 and no end, yet a submit sends fecha "rango" with 10 and 20 |
| SubjectSearchBars.ClickFacet | frontend/src/components/SearchBarTeoriaGrafos.tsx:42-55 | the clicked field toggles, the others are kept, and `etiquetas` is the comma-join of the non-empty tipo and nivel |
| SubjectSearchBars.CombineTags | frontend/src/components/SearchBarTeoriaGrafos.tsx:61-65 | defines the submitted tags: the trimmed current tags and the pinned tag, each trimmed, the non-empty ones comma-joined |
| SubjectSearchBars.CombineTagsShape | frontend/src/components/SearchBarTeoriaGrafos.tsx:61-65 | the submitted tags are the pinned tag alone when the current tags are blank, else the trimmed tags, a comma and the pinned tag |
| SubjectSearchBars.JoinNonEmptyTwo | frontend/src/components/SearchBarTeoriaGrafos.tsx:62-65 | dropping empty pieces from two and joining gives the second alone or both with a comma |
| SubjectSearchBars.LanguageCode | frontend/src/components/SearchBarTeoriaGrafos.tsx:68-71 | "Español", "Inglés" and "Otro..." map to es, en and otro; every other value omits `idioma` |
| SubjectSearchBars.LanguageCodeInjective | frontend/src/components/SearchBarTeoriaGrafos.tsx:68-71 | two labels with the same code are the same label |
| SubjectSearchBars.FacetParams | frontend/src/components/SearchBarTeoriaGrafos.tsx:73-79 | the facet part of the parameters: combined tags, tipo and nivel when non-empty, and the language code |
| SubjectSearchBars.SubjectBar.TeoriaGrafos | frontend/src/components/SearchBarTeoriaGrafos.tsx:26-39 | the graph-theory bar starts empty with pinned tag "Teoria de grafos" |
| SubjectSearchBars.SubjectBar.AnalisisNumerico | frontend/src/components/SearchBarAnalisisNumerico.tsx:26-39 | the numerical-analysis bar starts empty with pinned tag "Analisis numerico" |
| SubjectSearchBars.SubjectBar.SetQ | frontend/src/components/SearchBarTeoriaGrafos.tsx:151 | typing replaces the text only |
| SubjectSearchBars.SubjectBar.FilterClick | frontend/src/components/SearchBarTeoriaGrafos.tsx:42-55 | the filters become `ClickFacet` of the old ones |
| SubjectSearchBars.SubjectBar.ToggleCalendar | frontend/src/components/SearchBarTeoriaGrafos.tsx:261 | the calendar button flips the calendar flag only |
| SubjectSearchBars.SubjectBar.ChooseStart | frontend/src/components/SearchBarTeoriaGrafos.tsx:282-285 | the start picker stores the date and clears a set earlier end date |
| SubjectSearchBars.SubjectBar.ChooseEnd | frontend/src/components/SearchBarTeoriaGrafos.tsx:295 | the end picker stores the date unconditionally |
| SubjectSearchBars.SubjectBar.Submit | frontend/src/components/SearchBarTeoriaGrafos.tsx:58-88 | the parameters hold `q` trimmed, tags that always contain the pinned tag, the language code, and both dates exactly when both pickers are set (same code at frontend/src/components/SearchBarAnalisisNumerico.tsx:58-88) |
| SubjectSearchBars.SubjectBar.Aplicar | frontend/src/components/SearchBarTeoriaGrafos.tsx:308-349 | a search is sent only with both dates set, with `q` absent when blank and the range recorded in the filters; the calendar always closes (same code at frontend/src/components/SearchBarAnalisisNumerico.tsx:316-355) |
| SubjectSearchBars.PinnedContained | frontend/src/components/SearchBarTeoriaGrafos.tsx:61-65 | whatever the current tags, the submitted tags contain the pinned tag |
| SubjectSearchBars.EndsWithTag | frontend/src/components/SearchBarTeoriaGrafos.tsx:61-65 | a tag string ending in the pinned tag contains it |
| SubjectSearchBars.TypeThenLevelTags | frontend/src/components/SearchBarTeoriaGrafos.tsx:42-65 | clicking a trimmed type and then a level in a fresh bar submits the tags type, level and pinned subject, comma-joined (for example "Libro,Avanzado,Teoria de grafos") |
| SubjectSearchBars.TrimmedTagsCombine | frontend/src/components/SearchBarTeoriaGrafos.tsx:61-65 | trimmed, non-empty bar tags and pinned subject are sent unchanged, joined by a comma |
| SubjectSearchBars.TwoFacetTags | frontend/src/components/SearchBarTeoriaGrafos.tsx:50-51 | with a type and a level chosen, the bar's tags are the two, comma-joined |
| Home.QueryText | frontend/src/pages/Home.tsx:51-52 | defines the search text: the trimmed `q`, or "" when it is absent |
| Home.MapIdioma | frontend/src/pages/Home.tsx:55-60 | the language sent is "en", "es" or the raw value, and it is empty only for an empty value |
| Home.MapIdiomaEnglish | frontend/src/pages/Home.tsx:57 | "Inglés" maps to "en" |
| Home.MapIdiomaSpanish | frontend/src/pages/Home.tsx:58 | "Español" maps to "es" |
| Home.MapIdiomaOther | frontend/src/pages/Home.tsx:59 | "Otro..." is sent unchanged |
| Home.NotContainsWithoutFirst | frontend/src/pages/Home.tsx:57-58 | a value that lacks a word's first letter does not contain that word |
| Home.Label | frontend/src/pages/Home.tsx:62-64 | defines one conditional push: a truthy facet value contributes itself trimmed, anything else nothing |
| Home.FacetTags | frontend/src/pages/Home.tsx:61-64 | defines the collected facet tags (subject, type, level, each through `Label`); `FacetTagsAreNonEmptyLabels` states their contents |
| Home.EtiquetasParam | frontend/src/pages/Home.tsx:65-69 | defines the tags sent: the trimmed written tags when not blank, else the joined facet tags when there are any, else none |
| Home.Params | frontend/src/pages/Home.tsx:49-77 | `q` only when the trimmed text is non-empty; a truthy language is sent as `MapIdioma` of it and no other language is sent; the tags rule; dates copied independently; `verificado` when defined; limit 10 and offset 0 by default |
| Home.WrittenTagsWin | frontend/src/pages/Home.tsx:65-66 | non-blank written tags are sent trimmed, whatever the facets hold |
| Home.FacetFallbackMatchesBar | frontend/src/pages/Home.tsx:61-69 | with no written tags, the sent tags are the comma-join of the trimmed asignatura, tipo and nivel, absent when all are empty |
| Home.FacetTagsAreNonEmptyLabels | frontend/src/pages/Home.tsx:61-64 | the collected facet tags are the non-empty facet values in order |
| Home.LabelTrimmed | frontend/src/pages/Home.tsx:62-64 | a trimmed facet value contributes itself when non-empty and nothing otherwise |
| Home.HasAnyFilter | frontend/src/pages/Home.tsx:82-88 | defines the guard of `handleSearch` on the mapped parameters: text, tags, both dates, a language, `verificado` or a location |
| Home.SearchSentIff | frontend/src/pages/Home.tsx:82-89 | a search is sent exactly when the payload has text, tags or facets, both dates, a language, `verificado` or a location |
| Home.OneBoundSearchesNothing | frontend/src/pages/Home.tsx:85 | a single date bound alone never sends a search |
| Home.UntouchedBarSearchesNothing | frontend/src/pages/Home.tsx:82-89 | submitting the untouched general bar sends nothing |
| Home.HomePage.constructor | frontend/src/pages/Home.tsx:42-46 | the page starts with no results, not loading, empty last query, ascending order |
| Home.HomePage.MapFiltersToParams | frontend/src/pages/Home.tsx:49-77 | returns `Params(payload)` and records the trimmed text as last query when it is non-empty |
| Home.HomePage.HandleSearch | frontend/src/pages/Home.tsx:79-103 | an undefined or filterless payload changes nothing; otherwise results are the response sorted A-Z (empty on failure) and loading ends; the direction is kept |
| Home.HomePage.ShowResults | frontend/src/pages/Home.tsx:90-102 | results are the sorted response items, or empty on failure, and loading ends |
| Home.HomePage.ToggleOrden | frontend/src/pages/Home.tsx:105-114 | the direction flips and results become a permutation of themselves sorted in the new direction |
| AnalisisNumericoPage.TagList | frontend/src/pages/AnalisisNumerico.tsx:92-95 | the split, trimmed, non-empty tags hold no empty tag and no comma |
| AnalisisNumericoPage.CleanTags | frontend/src/pages/AnalisisNumerico.tsx:91-95 | the cleaned payload tags hold no empty tag and no comma |
| AnalisisNumericoPage.WithSubject | frontend/src/pages/AnalisisNumerico.tsx:97-99 | the final list has every tag and "Analisis numerico", and nothing else |
| AnalisisNumericoPage.WithSubjectClean | frontend/src/pages/AnalisisNumerico.tsx:97-99 | appending the subject keeps every tag non-empty and comma-free |
| AnalisisNumericoPage.FinalTags | frontend/src/pages/AnalisisNumerico.tsx:91-99 | the final tags are non-empty and comma-free |
| AnalisisNumericoPage.SearchParams | frontend/src/pages/AnalisisNumerico.tsx:103-108 | the parameters are the payload with tags replaced by the joined final tags and a truthy `asignatura` removed |
| AnalisisNumericoPage.SentTagsReadBack | frontend/src/pages/AnalisisNumerico.tsx:91-105 | splitting the sent tag string on commas gives back exactly the final tag list |
| AnalisisNumericoPage.BlankTagsSendSubject | frontend/src/pages/AnalisisNumerico.tsx:91-101 | blank or missing tags send exactly "Analisis numerico" |
| AnalisisNumericoPage.SubjectNotDuplicated | frontend/src/pages/AnalisisNumerico.tsx:97-99 | tags that already hold the subject are sent unchanged |
| AnalisisNumericoPage.OtherTagsGainSubject | frontend/src/pages/AnalisisNumerico.tsx:91-101 | two other clean tags gain the subject as a third |
| AnalisisNumericoPage.CleanPair | frontend/src/pages/AnalisisNumerico.tsx:91-95 | "a,b" cleans to the two tags |
| AnalisisNumericoPage.CleanTrimmed | frontend/src/pages/AnalisisNumerico.tsx:91 | a non-empty trimmed tag string cleans to its split tag list |
| AnalisisNumericoPage.TagListPair | frontend/src/pages/AnalisisNumerico.tsx:92-95 | "a,b" splits into the two tags |
| AnalisisNumericoPage.AnalisisNumerico.constructor | frontend/src/pages/AnalisisNumerico.tsx:87-140 | the page starts with no results, ascending order and the sortedness invariant |
| AnalisisNumericoPage.AnalisisNumerico.HandleSearch | frontend/src/pages/AnalisisNumerico.tsx:87-128 | an undefined payload changes nothing; else the subject parameters are sent, results sorted A-Z (empty on failure), last query set, order reset to ascending, loading ended |
| AnalisisNumericoPage.AnalisisNumerico.ShowResults | frontend/src/pages/AnalisisNumerico.tsx:113-127 | success stores sorted results, `q` or "" as last query and ascending order; failure empties the results |
| AnalisisNumericoPage.AnalisisNumerico.ToggleOrden | frontend/src/pages/AnalisisNumerico.tsx:131-140 | the direction flips, results are re-sorted in it, and their multiset is unchanged |
| Collation.InsertPermutes | frontend/src/pages/RecursosAnalisisNumerico.tsx:69-76 | one insertion step adds exactly the inserted element to the multiset |
| Collation.Insert | frontend/src/pages/RecursosAnalisisNumerico.tsx:69-76 | defines one insertion step of the reference sort: the element goes behind every element it may follow |
| Collation.SortByKey | frontend/src/pages/RecursosAnalisisNumerico.tsx:69-76 | defines the reference sort of `[...arr].sort(cmp)` as repeated insertion; the lemmas below state its properties |
| Collation.SortPermutes | frontend/src/pages/RecursosAnalisisNumerico.tsx:69-76 | sorting keeps the multiset, the length and the members |
| Collation.SortSorted | frontend/src/pages/RecursosAnalisisNumerico.tsx:69-76 | for a total preorder, the result is ordered in the requested direction |
| Collation.SortOrderedUnchanged | frontend/src/pages/RecursosAnalisisNumerico.tsx:69-76 | an already ordered list is returned unchanged, so ties in already ordered input keep their order |
| Collation.InsertSorted | frontend/src/pages/RecursosAnalisisNumerico.tsx:69-76 | inserting into an ordered list keeps it ordered |
| Collation.SortSnoc | frontend/src/pages/RecursoCRUD.tsx:108-110 | sorting one more element is inserting it into the sorted prefix |
| Collation.InsertLandsAt | frontend/src/pages/RecursoCRUD.tsx:108-110 | the inserted element lands after the last element it may follow, and every later element must follow it |
| Collation.InsertAt | frontend/src/pages/RecursoCRUD.tsx:108-110 | one pass of the in-place sort inserts `a[i]` into the sorted prefix and leaves the rest alone |
| Collation.SortInPlace | frontend/src/pages/Autores.tsx:39-41 | the in-place sort leaves the array equal to the reference sort of its old contents |
| Collation.SortedCopy | frontend/src/pages/RecursosAnalisisNumerico.tsx:69-76 | the copying sort returns the reference sort, a permutation of its input, and does not touch the input |
| Collation.SearchTerm | frontend/src/pages/RecursoCRUD.tsx:140 | defines the search term: the box's text trimmed and lower-cased |
| Collation.Matches | frontend/src/pages/RecursoCRUD.tsx:142 | defines a match: the lower-cased key includes the term |
| Collation.FilterByTerm | frontend/src/pages/RecursoCRUD.tsx:142 | the filtered list is never longer than the list; `FilterByTermSpec` states which elements are kept |
| Collation.FilterByTermSpec | frontend/src/pages/RecursoCRUD.tsx:139-143 | an element is kept exactly when its lowercased title contains the term, and nothing is added |
| Collation.FilterIsSubsequence | frontend/src/pages/RecursoCRUD.tsx:142 | filtering keeps order: the result is a subsequence of the input |
| Collation.FilterEmptyTerm | frontend/src/pages/RecursoCRUD.tsx:141 | the empty term keeps everything |
| Collation.FilterView | frontend/src/pages/Autores.tsx:52-62 | defines the shown list: everything for a blank term, else the filter by the term |
| Collation.FilterByTermCounts | frontend/src/pages/RecursoCRUD.tsx:142 | each matching element occurs in the filtered list as often as in the list, and no other element occurs |
| Collation.FilterViewSpec | frontend/src/pages/Autores.tsx:52-62 | the shown list equals filtering by the trimmed, lowercased term, is a subsequence of the list, holds exactly the matches, and holds each match as often as the list does |
| RecursosAnalisis.FetchParams | frontend/src/pages/RecursosAnalisisNumerico.tsx:82-85 | the fetch sends `q` (default "") and the fixed tag "Analisis numerico" and nothing else |
| RecursosAnalisis.Visible | frontend/src/pages/RecursosAnalisisNumerico.tsx:108-118 | defines the shown list: the term filter of the results, sorted in the current direction |
| RecursosAnalisis.VisibleSpec | frontend/src/pages/RecursosAnalisisNumerico.tsx:108-118 | the shown list is a sorted permutation of the matching results, so every shown item is a result |
| RecursosAnalisis.VisibleEmpty | frontend/src/pages/RecursosAnalisisNumerico.tsx:108-118 | no results show nothing |
| RecursosAnalisis.RecursosAnalisisNumerico.constructor | frontend/src/pages/RecursosAnalisisNumerico.tsx:69-126 | the page starts empty, ascending, with the view invariant |
| RecursosAnalisis.RecursosAnalisisNumerico.ApplyFilter | frontend/src/pages/RecursosAnalisisNumerico.tsx:108-118 | the filter effect restores the view invariant and changes nothing else |
| RecursosAnalisis.RecursosAnalisisNumerico.FetchAll | frontend/src/pages/RecursosAnalisisNumerico.tsx:79-99 | sends `FetchParams(q)`; on success results are the items sorted in the current direction and last query is `q ?? ""`; on failure results are empty |
| RecursosAnalisis.RecursosAnalisisNumerico.Store | frontend/src/pages/RecursosAnalisisNumerico.tsx:86-95 | stores the sorted items in both lists, or empties both |
| RecursosAnalisis.RecursosAnalisisNumerico.SetBusqueda | frontend/src/pages/RecursosAnalisisNumerico.tsx:108-118 | a new term re-runs the filter effect |
| RecursosAnalisis.RecursosAnalisisNumerico.ToggleOrden | frontend/src/pages/RecursosAnalisisNumerico.tsx:121-126 | the direction flips and both lists are re-sorted in it, results keeping their multiset |
| RecursoCrud.RolOf | frontend/src/pages/RecursoCRUD.tsx:101 | the page's role is the user's role when it is set and non-empty |
| RecursoCrud.IdOf | frontend/src/pages/RecursoCRUD.tsx:102 | the page's user id is the user's id when it is set and non-zero |
| RecursoCrud.CanManage | frontend/src/pages/RecursoCRUD.tsx:175 | defines access to the manager page: the role is "admin" or "docente" |
| RecursoCrud.CanEdit | frontend/src/pages/RecursoCRUD.tsx:414 | defines who sees a resource's edit and delete buttons: an administrator, or the user whose id is the resource's creator |
| RecursoCrud.TeacherEditsOwnOnly | frontend/src/pages/RecursoCRUD.tsx:414 | a teacher sees edit controls exactly on resources they created |
| RecursoCrud.AdminEditsAll | frontend/src/pages/RecursoCRUD.tsx:414 | an administrator sees edit controls on every resource |
| RecursoCrud.RemoveId | frontend/src/pages/RecursoCRUD.tsx:161 | after a delete, an entry remains exactly when its id is not the deleted one |
| RecursoCrud.RemoveIdCounts | frontend/src/pages/RecursoCRUD.tsx:161 | every entry with another id remains as often as it occurred, and none with the deleted id |
| RecursoCrud.RemoveIdSubsequence | frontend/src/pages/RecursoCRUD.tsx:161 | the remaining entries keep their order |
| RecursoCrud.RemoveAbsentId | frontend/src/pages/RecursoCRUD.tsx:161 | deleting an id no entry has changes nothing |
| RecursoCrud.EditPath | frontend/src/pages/RecursoCRUD.tsx:170 | defines the editor path: "/admin/recursos/editar/" and the id in decimal |
| RecursoCrud.EditPathInjective | frontend/src/pages/RecursoCRUD.tsx:170 | different ids navigate to different edit paths |
| RecursoCrud.EditTarget | frontend/src/pages/RecursoCRUD.tsx:168-171 | a falsy id does not navigate; any other id goes to its edit path |
| RecursoCrud.RecursoCrudPage.constructor | frontend/src/pages/RecursoCRUD.tsx:101-102 | the page starts loading, with nothing loaded, the user's role and id, and the view invariant |
| RecursoCrud.RecursoCrudPage.AccessGranted | frontend/src/pages/RecursoCRUD.tsx:175 | the page opens exactly for "admin" and "docente" |
| RecursoCrud.RecursoCrudPage.ApplyFilter | frontend/src/pages/RecursoCRUD.tsx:139-143 | the shown list becomes the filter of the resources by the term |
| RecursoCrud.RecursoCrudPage.Load | frontend/src/pages/RecursoCRUD.tsx:104-121 | success stores the list sorted A-Z and filters it; failure sets the error and keeps the lists; loading ends |
| RecursoCrud.RecursoCrudPage.SetBusqueda | frontend/src/pages/RecursoCRUD.tsx:139-143 | a new term re-runs the filter effect |
| RecursoCrud.RecursoCrudPage.ToggleOrden | frontend/src/pages/RecursoCRUD.tsx:145-154 | the direction flips and only the shown list is re-sorted; the resources are untouched |
| RecursoCrud.RecursoCrudPage.HandleDelete | frontend/src/pages/RecursoCRUD.tsx:156-166 | a falsy id or a declined confirm sends nothing; success removes exactly that id's entries; failure changes nothing |
| Autores.Nombre | frontend/src/pages/Autores.tsx:58 | defines the key authors are filtered and sorted by: `nombreautor` |
| Autores.AutoresPage.constructor | frontend/src/pages/Autores.tsx:35-49 | the page starts empty and ascending, with the view invariant |
| Autores.AutoresPage.ApplyFilter | frontend/src/pages/Autores.tsx:52-62 | the shown list becomes the filter of the authors by the term |
| Autores.AutoresPage.Load | frontend/src/pages/Autores.tsx:36-47 | success stores the authors sorted A-Z in both lists; failure leaves both as they were |
| Autores.AutoresPage.SetBusqueda | frontend/src/pages/Autores.tsx:52-62 | a new term re-runs the filter effect |
| Autores.AutoresPage.ToggleOrden | frontend/src/pages/Autores.tsx:65-74 | the direction flips and only the shown list is re-sorted in it |
| ResourceCard.SignedIn | frontend/src/components/ResourceCard.tsx:58 | defines being signed in: the token is truthy |
| ResourceCard.FlagAfterClick | frontend/src/components/ResourceCard.tsx:73-93 | a click changes the star exactly when the user is signed in and the call succeeds |
| ResourceCard.ClickTwiceRestores | frontend/src/components/ResourceCard.tsx:79-88 | two successful clicks restore the star |
| ResourceCard.FavoriteToggle.constructor | frontend/src/components/ResourceCard.tsx:28 | the star starts off |
| ResourceCard.FavoriteToggle.CheckOnMount | frontend/src/components/ResourceCard.tsx:55-70 | the check is made only with a token and an id; success sets the star to the answer, failure keeps it |
| ResourceCard.FavoriteToggle.Click | frontend/src/components/ResourceCard.tsx:73-93 | without a token no call and a login notice; else remove when starred and add when not, with the id alone; failure keeps the star |
| Theme.NextTheme | frontend/src/context/ThemeContext.tsx:32-34 | toggling always changes the theme and lands on light, dark or blue |
| Theme.NextFontSize | frontend/src/context/ThemeContext.tsx:36-38 | cycling always changes the size and lands on small, medium or large |
| Theme.NextContrast | frontend/src/context/ThemeContext.tsx:40-42 | toggling always changes the contrast and lands on normal or high |
| Theme.ThemeFollowsOrder | frontend/src/context/ThemeContext.tsx:33 | the toggle visits light, dark, blue in that cyclic order |
| Theme.FontSizeFollowsOrder | frontend/src/context/ThemeContext.tsx:37 | the cycle visits small, medium, large in that cyclic order |
| Theme.ContrastFollowsOrder | frontend/src/context/ThemeContext.tsx:41 | the toggle alternates normal and high |
| Theme.ThemePeriod | frontend/src/context/ThemeContext.tsx:33 | three toggles are the identity on known themes, two are not, and any stored value enters the cycle after one toggle |
| Theme.FontSizePeriod | frontend/src/context/ThemeContext.tsx:37 | three steps are the identity on known sizes, two are not, and any value enters the cycle after one step |
| Theme.ContrastInvolution | frontend/src/context/ThemeContext.tsx:41 | two toggles are the identity on known modes |
| Theme.StoredOr | frontend/src/context/ThemeContext.tsx:21-23 | a stored value is used unless it is missing or empty, and the result is never empty |
| Theme.Initial | frontend/src/context/ThemeContext.tsx:21-23 | the settings start non-empty, and with nothing stored they are blue, medium and normal |
| Theme.Persist | frontend/src/context/ThemeContext.tsx:27-29 | the effect writes the three keys and leaves every other stored key alone |
| Theme.PersistThenLoad | frontend/src/context/ThemeContext.tsx:21-29 | settings written by the effect are read back unchanged on the next start |
| Theme.PersistIdempotent | frontend/src/context/ThemeContext.tsx:27-29 | writing the same settings twice is writing them once |
| Theme.ClassName | frontend/src/context/ThemeContext.tsx:26 | defines the document class: theme, font size and contrast separated by spaces |
| Text.JoinThree | frontend/src/context/ThemeContext.tsx:26 | the helper behind `ClassNameSplits`: three strings joined put the separator between each neighbouring pair |
| Theme.ClassNameSplits | frontend/src/context/ThemeContext.tsx:26 | the document class splits on spaces into exactly the three settings |
| Theme.ThemeProvider.constructor | frontend/src/context/ThemeContext.tsx:20-30 | the provider starts from storage and runs the effect once |
| Theme.ThemeProvider.Sync | frontend/src/context/ThemeContext.tsx:25-30 | the effect sets the document class and storage from the settings |
| Theme.ThemeProvider.ToggleTheme | frontend/src/context/ThemeContext.tsx:32-34 | only the theme changes, to its successor, and the effect runs |
| Theme.ThemeProvider.CycleFontSize | frontend/src/context/ThemeContext.tsx:36-38 | only the font size changes, to its successor, and the effect runs |
| Theme.ThemeProvider.ToggleContrast | frontend/src/context/ThemeContext.tsx:40-42 | only the contrast changes, to the other mode, and the effect runs |
| Theme.UseTheme | frontend/src/context/ThemeContext.tsx:51-55 | outside a provider the hook throws "useTheme debe usarse dentro de ThemeProvider"; inside it returns the provider's settings |
| Breadcrumbs.Segments | frontend/src/components/Breadcrumbs.tsx:8 | no segment is empty or holds "/" |
| Breadcrumbs.PathSegments | frontend/src/components/Breadcrumbs.tsx:8 | defines a well-formed segment list, what the split-and-filter can return: no segment empty or holding "/" |
| Breadcrumbs.RouteTo | frontend/src/components/Breadcrumbs.tsx:21 | defines the link of crumb `index`: "/" and the first `index + 1` segments joined by "/" |
| Breadcrumbs.DashesToSpaces | frontend/src/components/Breadcrumbs.tsx:27 | every "-" becomes a space and every other character is kept |
| Breadcrumbs.Label | frontend/src/components/Breadcrumbs.tsx:25-27 | defines a crumb's text: the first character upper-cased and the rest with dashes turned to spaces; `LabelShape` states it character by character |
| Breadcrumbs.SegmentCrumbs | frontend/src/components/Breadcrumbs.tsx:20-41 | one crumb per segment, labelled by its segment, with its prefix route as link except for the last |
| Breadcrumbs.Crumbs | frontend/src/components/Breadcrumbs.tsx:14-41 | a leading "Inicio" crumb to "/", so one more crumb than segments |
| Breadcrumbs.TrailLinks | frontend/src/components/Breadcrumbs.tsx:20-38 | for any segment list, the last crumb after "Inicio" has no link and every earlier one links to its route |
| Breadcrumbs.OnlyLastIsText | frontend/src/components/Breadcrumbs.tsx:22-38 | exactly the last crumb, when there is a segment, has no link; every middle crumb links to its route |
| Breadcrumbs.LabelShape | frontend/src/components/Breadcrumbs.tsx:25-27 | a label has its segment's length, the first character uppercased, later dashes as spaces and no later dash |
| Breadcrumbs.RouteStep | frontend/src/components/Breadcrumbs.tsx:21 | each route is the previous one, "/" and the next segment |
| Breadcrumbs.RoutePrefix | frontend/src/components/Breadcrumbs.tsx:21 | each route is a prefix of every later one |
| Breadcrumbs.LastRoute | frontend/src/components/Breadcrumbs.tsx:21 | the last route is "/" and all segments joined by "/" |
| Breadcrumbs.LinkLeadsToPrefix | frontend/src/components/Breadcrumbs.tsx:8-21 | following the link of crumb i gives a page whose segments are the first i+1 segments |
| Breadcrumbs.NormalizedPathSameTrail | frontend/src/components/Breadcrumbs.tsx:8-21 | a path and its normalized form have the same trail, so repeated or trailing slashes change nothing |
| Sidebar.EffectiveRol | frontend/src/components/Sidebar.tsx:30-33 | the role is the user's role, else the stored one, else "visitante" |
| Sidebar.SeesManager | frontend/src/components/Sidebar.tsx:43 | defines who gets the manager link: the role "docente" or "admin" |
| Sidebar.NavItems | frontend/src/components/Sidebar.tsx:35-52 | four base items first, two footer items last, and the manager link, making seven, exactly for "docente" and "admin" |
| Sidebar.ManagerLinkMatchesAccess | frontend/src/components/Sidebar.tsx:42-45 | for a user with a role, the manager link is shown exactly to those the manager page admits |
| Sidebar.VisitorSeesNoManager | frontend/src/components/Sidebar.tsx:30-45 | with neither a user role nor a stored one, the list has six items and no manager link |
| Sidebar.Logo | frontend/src/components/Sidebar.tsx:63-66 | the first logo exactly for the light theme, the second otherwise |
| Sidebar.SidebarState.constructor | frontend/src/components/Sidebar.tsx:25-27 | closed, expanded and with no items at first |
| Sidebar.SidebarState.RefreshItems | frontend/src/components/Sidebar.tsx:29-53 | the effect sets the items for the effective role and nothing else |
| Sidebar.SidebarState.ToggleMobile | frontend/src/components/Sidebar.tsx:55 | flips the mobile flag only |
| Sidebar.SidebarState.ToggleCollapse | frontend/src/components/Sidebar.tsx:56-60 | flips the collapsed flag and hands the new value to the callback when there is one |
| Profile.ResolveToken | frontend/src/pages/Profile.tsx:74-77 | the session token, else the stored access token, else the stored token, each only when non-empty |
| Profile.TokenFoundIff | frontend/src/pages/Profile.tsx:74-78 | a token is used exactly when one of the three places holds a non-empty one |
| Profile.FormFrom | frontend/src/pages/Profile.tsx:61-68 | a loaded body fills each field, missing ones with "" and the role with "normal" |
| Profile.FormFromFullData | frontend/src/pages/Profile.tsx:62-68 | a body with every key present loads exactly those values |
| Profile.SavePayload | frontend/src/pages/Profile.tsx:131-135 | the name only when non-empty, phone and student code always, e-mail and role never |
| Profile.ApplyPayload | frontend/src/pages/Profile.tsx:137 | defines how the server is taken to apply the `PUT /usuarios/me` body: each key present replaces the stored field and absent keys leave it. This models the server's partial update, not the page, and serves only to state `SaveEffect` |
| Profile.SaveEffect | frontend/src/pages/Profile.tsx:131-139 | applied to any stored profile, the payload keeps e-mail, role and a blank-form name, takes the rest from the form, and is idempotent |
| Profile.ColorByRol | frontend/src/pages/Profile.tsx:152-169 | purple exactly for "docente", orange exactly for "admin", blue otherwise, ignoring case |
| Profile.ColorCaseInsensitive | frontend/src/pages/Profile.tsx:153 | lowercasing the role first changes no colour |
| Profile.ProfilePage.constructor | frontend/src/pages/Profile.tsx:14-25 | empty form with role "normal", no favourites, loading, not editing |
| Profile.ProfilePage.LoadUsuario | frontend/src/pages/Profile.tsx:55-79 | the profile is requested only with a token; success fills the form, failure keeps it |
| Profile.ProfilePage.LoadFavoritos | frontend/src/pages/Profile.tsx:84-108 | with no token nothing is requested and the list is empty; success gives the list (`[]` for null), failure empties it; loading ends |
| Profile.ProfilePage.HandleChange | frontend/src/pages/Profile.tsx:113-115 | typing replaces one field of the form only |
| Profile.ProfilePage.Guardar | frontend/src/pages/Profile.tsx:120-147 | no token sends nothing; otherwise the payload of the form is sent, and only a success closes the editor |
| Profile.ProfilePage.ToggleEditando | frontend/src/pages/Profile.tsx:282 | the edit button flips the editing flag only |
| Text.TrimSpec | frontend/src/pages/Home.tsx:51-52 | a trimmed string neither starts nor ends with white space |
| Text.TrimIdempotent | frontend/src/pages/AnalisisNumerico.tsx:91-94 | trimming twice is trimming once |
| Text.ToLowerIdempotent | frontend/src/pages/Profile.tsx:153 | lowercasing twice is lowercasing once |
| Text.JoinSplit | frontend/src/pages/AnalisisNumerico.tsx:92-101 | joining the pieces of a split by the separator gives the string back |
| Text.SplitJoin | frontend/src/pages/AnalisisNumerico.tsx:92-101 | splitting pieces without the separator after joining them gives the pieces back |
| Text.CleanPieces | frontend/src/pages/AnalisisNumerico.tsx:92-95 | the trimmed, non-empty pieces of a split hold no separator |

## Left out

- Rendering, styling, colour palettes, scroll-driven `showTop` effects, icons, alerts' texts and console logging are not modelled; notices stand for the alerts.
- The HTTP layer and the services are outside the model: their answers are `Outcome` parameters.
- Concurrency between awaited calls is not modelled: each handler runs to completion before the next event, so out-of-order responses are not explored.
- `localeCompare` is an abstract comparator; Unicode collation is not modelled.
- Case mapping is ASCII only: `toLowerCase` of "INGLÉS" in JavaScript gives "inglés", here the "É" is kept, so `Home.MapIdioma` agrees with the source on the labels the bars offer but not on arbitrary upper-case text.
- Trimming removes the ASCII white-space characters only, not the Unicode spaces JavaScript's `trim` also removes.
- Dates are day numbers; `toISOString().split("T")[0]` is not modelled, and the parameters hold the day itself.
- JavaScript's `null` and `undefined` are both `None`; a record whose `titulo` is missing is not representable (titles are strings), so the `?? ""` fallback of `sortByTitle` is not modelled.
- Non-string values such as a numeric `q` passed through `String(...)` are not modelled; every key holds a string, a day, a number or a flag.
- `RecursoCrud.CanEdit` compares optional ids, so a missing user id matches a resource with a missing creator, as `null === null` does in the source; undefined-versus-null distinctions are not modelled.
- `handleNew` on the manager page is a fixed navigation and is not modelled.
- The profile page's role label (first character uppercased) is display formatting and is not modelled.
- The navigation between pages and the router are not modelled; links are strings.
- `ThemeWrapper.tsx`, the auth context, and the pages outside the list above are not part of this model.
