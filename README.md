# Brewtarget fermentable table and recipe-tree node, in Dafny

This project models two pieces of Brewtarget's user-interface layer:

- **`FermentableTableModel`** (`fermentable_table_model.dfy`): the rows of a
  recipe's fermentable table. The model is a class holding an ordered,
  duplicate-free list of `Fermentable` objects (`fermObs`) and a running total of
  their amounts (`totalFermMassKg`, in exact `real` arithmetic). It also holds the
  set of fermentables it observes and a counter of `reset()` calls, which tell
  the view to re-read everything. Adding, removing and clearing rows change the
  list in place. A change notification from a row recomputes the total from
  scratch. `data`, `headerData`, `flags` and `setData` answer the view's per-cell
  queries.
- **`btTreeItem`** (`bt_tree_item.dfy`): a node of the recipe browser's tree. It has
  a kind (recipe, equipment, fermentable, hop, misc, yeast, style, brew note,
  folder, or any other integer), an optional attached domain object (the
  "thing"), an ordered child list and a parent link. Child insertion and removal
  are in-place splices of the child list. Each kind has its own renderer. A node
  without a thing is a category placeholder. The typed getters narrow the thing
  to one class. `operator==` compares the kind and the column-0 cell.

`lists.dfy` holds the list operations both classes use: `QList::indexOf`,
`erase`/`takeAt`, and absence of duplicates. `qt_values.dfy` holds the QVariant
results, the item-data roles and the values handed to `setData`.

The column constants (`FERMNAMECOL`, `RECIPENAMECOL`, `FOLDERNUMCOLS`, …) are
defined in headers that are not part of this model. They stay symbolic:
`FermColumns` and `TreeColumns` hold them. Their `Valid()` predicates require
the labels of one switch to be pairwise different and to lie below the column
count. Qt's own `Qt::Checked` (2) is used as Qt documents it.

Some behaviour of the code worth knowing in advance:

- A folder placeholder shows "Folder" in every column, not just the name
  column (src/btTreeItem.cpp:374-379).
- A brew-note placeholder shows nothing at all (src/btTreeItem.cpp:330-333).
- `childNumber` returns -1 when a node's parent no longer lists it
  (src/btTreeItem.cpp:142-147). This happens after `removeChildren`, because
  removed nodes keep their parent link (src/btTreeItem.cpp:175-187).
- A notification recomputes the total from the rows' current amounts
  (src/FermentableTableModel.cpp:130-148). Take rows of 2.0 kg and 3.0 kg. The
  first becomes 4.0 kg and notifies, and the total is 7.0 kg
  (`FermentableTableModels.NotifyScenario`).

## Model

| member | source | states |
|---|---|---|
| `FermentableTableModels.FermentableTableModel.constructor` | src/FermentableTableModel.cpp:46-54 | a new model has no rows, a total of 0, percentages off, observes nothing, and its total agrees with its rows |
| `FermentableTableModels.FermentableTableModel.AddFermentable` | src/FermentableTableModel.cpp:56-75 | adding a fermentable already in the list changes nothing (list, total, observers, resets); otherwise it is appended as the last row, observed, and its amount is added to the total; the list stays duplicate-free and a consistent total stays consistent |
| `FermentableTableModels.FermentableTableModel.RemoveFermentable` | src/FermentableTableModel.cpp:77-99 | returns true exactly when the fermentable was a row; then exactly that entry is erased, the other rows keep their order, it is no longer observed, and its amount leaves the total; otherwise nothing changes; a consistent total stays consistent |
| `FermentableTableModels.FermentableTableModel.RemoveAll` | src/FermentableTableModel.cpp:101-111 | every row stops being observed, the list is empty and the total is 0 |
| `FermentableTableModels.FermentableTableModel.UpdateTotalGrains` | src/FermentableTableModel.cpp:113-122 | the total becomes the sum of the current rows' amounts |
| `FermentableTableModels.FermentableTableModel.Notify` | src/FermentableTableModel.cpp:130-148 | a notification from a row makes the total the sum of the rows' current amounts and resets the view; one from any other object changes nothing; the rows never change |
| `FermentableTableModels.FermentableTableModel.SetDisplayPercentages` | src/FermentableTableModel.cpp:124-127 | the percentage flag takes the given value |
| `FermentableTableModels.FermentableTableModel.RowCount` | src/FermentableTableModel.cpp:150-153 | the row count is the length of the row list |
| `FermentableTableModels.RowCountCountsMembers` | src/FermentableTableModel.cpp:150-153 | the row count equals the number of distinct fermentables in the table and the number observed |
| `FermentableTableModels.FermentableTableModel.ColumnCount` | src/FermentableTableModel.cpp:155-158 | every column a switch names lies below FERMNUMCOLS |
| `FermentableTableModels.FermentableTableModel.Data` | src/FermentableTableModel.cpp:160-211 | a row outside the table or a column the switch does not name gives the invalid variant; otherwise the cell is the row's field shown in that column |
| `FermentableTableModels.Cell` | src/FermentableTableModel.cpp:173-210 | a column the switch does not name is empty; a non-empty cell needs the display role, except the mashed column's check state |
| `FermentableTableModels.LookupRow` | src/FermentableTableModel.cpp:164-171 | the row check accepts exactly the rows 0 .. rowCount-1, yields that row's fermentable, and never reads outside the list |
| `FermentableTableModels.LookupRowAsWritten` | src/FermentableTableModel.cpp:164-171 | the check as written lets exactly the negative rows through to an out-of-bounds read |
| `FermentableTableModels.InvalidIndexPassesRowCheck` | src/FermentableTableModel.cpp:165-171 | row -1 (the invalid model index) reads out of bounds under the check as written and is rejected by the intended one |
| `FermentableTableModels.HorizontalHeader` | src/FermentableTableModel.cpp:215-235 | a horizontal header is text exactly for the display role and a column the switch names, and empty otherwise |
| `FermentableTableModels.HeadersAreDistinct` | src/FermentableTableModel.cpp:217-230 | two different columns never share a header title |
| `FermentableTableModels.Flags` | src/FermentableTableModel.cpp:244-252 | every cell is selectable and enabled; only the mashed column is user-checkable, and every other column is editable |
| `FermentableTableModels.Edit` | src/FermentableTableModel.cpp:265-318 | an edit is accepted exactly for a column the switch names with a value convertible to a string; the mashed column instead needs the check-state role and an int-convertible value |
| `FermentableTableModels.EditThenShow` | src/FermentableTableModel.cpp:267-313 | after an accepted edit the cell shows the new text (the std::string round trip of name and type taken as lossless), the parsed amount formatted back, or the check state `value == Qt::Checked` |
| `FermentableTableModels.EditIsLocal` | src/FermentableTableModel.cpp:265-318 | an accepted edit leaves the cells of every other column unchanged |
| `FermentableTableModels.FermentableTableModel.SetData` | src/FermentableTableModel.cpp:254-319 | succeeds exactly when the row exists and the edit is accepted; the row's fields then become the edited ones; no other row, no refused edit, and never the row list changes |
| `FermentableTableModels.NotifyScenario` | src/FermentableTableModel.cpp:56-148 | adding rows of 2.0 kg and 3.0 kg gives a total of 5.0 kg; adding the first again leaves the total at 5.0 kg and the rows at 2; after the first becomes 4.0 kg and notifies, the total is 7.0 kg over the same 2 rows |
| `FermentableTableModels.FermentableTableModel.GetFermentable` | src/FermentableTableModel.cpp:321-324 | returns the i-th row |
| `FermentableTableModels.SumAppend` | src/FermentableTableModel.cpp:113-122 | the running sum of a concatenation is the sum of the parts, so appending a row adds its amount |
| `FermentableTableModels.SumRemoveAt` | src/FermentableTableModel.cpp:84-86 | erasing one row takes exactly its amount off the sum |
| `Lists.RemoveAt` | src/FermentableTableModel.cpp:84 | `fermObs.erase` (and `childItems.takeAt`, src/btTreeItem.cpp:184) drops exactly the k-th element: one element shorter, the earlier elements in place, the later ones shifted down by one |
| `Lists.RemoveAtDistinct` | src/FermentableTableModel.cpp:81-84 | erasing from a duplicate-free list keeps it duplicate-free and removes every copy of the erased element |
| `Lists.DistinctCardinality` | src/FermentableTableModel.cpp:150-153 | a duplicate-free list has as many elements as members |
| `Lists.IndexOf` | src/btTreeItem.cpp:142-147 | `QList::indexOf` finds the first occurrence, or -1 exactly when the element is absent |
| `BtTreeItems.TreeItem.constructor` | src/btTreeItem.cpp:50-54 | a new node has the given kind and parent, no thing and no children |
| `BtTreeItems.TreeItem.Child` | src/btTreeItem.cpp:61-67 | the n-th child when 0 <= n < childCount, null otherwise (including negative n) |
| `BtTreeItems.TreeItem.ChildCount` | src/btTreeItem.cpp:79-82 | the number of children |
| `BtTreeItems.TreeItem.ChildNumber` | src/btTreeItem.cpp:142-147 | 0 for a root; otherwise the node's first position in its parent's child list, or -1 if the parent does not list it |
| `BtTreeItems.TreeItem.InsertChildren` | src/btTreeItem.cpp:160-173 | fails and changes nothing when the position is outside 0 .. childCount; otherwise inserts max(count, 0) fresh thing-less children of the given kind at the position, whose parent is this node and whose childNumber is their index, and shifts the old later children right, keeping their order |
| `BtTreeItems.TreeItem.RemoveChildren` | src/btTreeItem.cpp:175-187 | fails and changes nothing when the position is negative or position + count exceeds childCount; otherwise removes exactly the slice [position, position + count) and keeps the rest in order (nothing for count <= 0) |
| `BtTreeItems.InsertThenRemove` | src/btTreeItem.cpp:160-187 | removing the children just inserted restores the child list |
| `BtTreeItems.ColumnCount` | src/btTreeItem.cpp:84-111 | an unknown kind has 0 columns |
| `BtTreeItems.Data` | src/btTreeItem.cpp:113-140 | an unknown kind renders the invalid variant |
| `BtTreeItems.DataRecipe` | src/btTreeItem.cpp:189-212 | a node whose thing is not a recipe shows "Recipes" in the name column and nothing elsewhere |
| `BtTreeItems.DataRecipeAsWritten` | src/btTreeItem.cpp:189-212 | as written, the name column dereferences a null recipe exactly when a thing of another class is attached; otherwise it agrees with the corrected renderer |
| `BtTreeItems.DataEquipment` | src/btTreeItem.cpp:214-232 | a node whose thing is not equipment shows "Equipment" in the name column and nothing elsewhere |
| `BtTreeItems.DataFermentable` | src/btTreeItem.cpp:234-256 | a node whose thing is not a fermentable shows "Fermentables" in the name column and nothing elsewhere |
| `BtTreeItems.DataHop` | src/btTreeItem.cpp:258-280 | a node whose thing is not a hop shows "Hops" in the name column and nothing elsewhere |
| `BtTreeItems.DataMisc` | src/btTreeItem.cpp:282-304 | a node whose thing is not a misc shows "Miscellaneous" in the name column and nothing elsewhere |
| `BtTreeItems.DataYeast` | src/btTreeItem.cpp:306-328 | a node whose thing is not a yeast shows "Yeast" in the name column and nothing elsewhere |
| `BtTreeItems.DataBrewNote` | src/btTreeItem.cpp:330-338 | a node whose thing is not a brew note shows nothing |
| `BtTreeItems.DataBrewNoteAsWritten` | src/btTreeItem.cpp:330-338 | as written, a null brew note is dereferenced exactly when a thing of another class is attached; otherwise it agrees with the corrected renderer |
| `BtTreeItems.DataStyle` | src/btTreeItem.cpp:340-367 | a node whose thing is not a style shows "Style" in the name column and nothing elsewhere |
| `BtTreeItems.DataFolder` | src/btTreeItem.cpp:369-395 | a node whose thing is not a folder shows "Folder" in every column |
| `BtTreeItems.PlaceholderRendering` | src/btTreeItem.cpp:189-395 | a thing-less node shows its kind's label in the name column and nothing elsewhere; a folder shows "Folder" everywhere; a brew note or an unknown kind shows nothing |
| `BtTreeItems.BrewNoteIgnoresColumn` | src/btTreeItem.cpp:330-338 | an attached brew note shows its short brew date in every column |
| `BtTreeItems.NameColumnShowsName` | src/btTreeItem.cpp:189-395 | a thing of the node's own kind shows its name in the kind's name column |
| `BtTreeItems.UnnamedColumnIsEmpty` | src/btTreeItem.cpp:189-395 | except for brew notes and folder placeholders, a column the kind's renderer does not name is empty |
| `BtTreeItems.CellsWithinColumnCount` | src/btTreeItem.cpp:84-395 | with a valid numbering, every non-empty cell lies below the kind's column count, except for brew notes and folder placeholders |
| `BtTreeItems.TreeItem.SetData` | src/btTreeItem.cpp:149-153 | sets both the kind and the thing |
| `BtTreeItems.TreeItem.SetType` | src/btTreeItem.cpp:397-400 | sets the kind |
| `BtTreeItems.TreeItem.GetRecipe` | src/btTreeItem.cpp:402-408 | a recipe exactly when the kind is RECIPE and a recipe is attached, and then that recipe |
| `BtTreeItems.TreeItem.GetEquipment` | src/btTreeItem.cpp:410-415 | equipment exactly when the kind is EQUIPMENT and equipment is attached, and then that equipment |
| `BtTreeItems.TreeItem.GetFermentable` | src/btTreeItem.cpp:417-422 | a fermentable exactly when the kind is FERMENTABLE and a fermentable is attached, and then that fermentable |
| `BtTreeItems.TreeItem.GetHop` | src/btTreeItem.cpp:424-429 | a hop exactly when the kind is HOP and a hop is attached, and then that hop |
| `BtTreeItems.TreeItem.GetMisc` | src/btTreeItem.cpp:431-436 | a misc exactly when the kind is MISC and a misc is attached, and then that misc |
| `BtTreeItems.TreeItem.GetYeast` | src/btTreeItem.cpp:438-443 | a yeast exactly when the kind is YEAST and a yeast is attached, and then that yeast |
| `BtTreeItems.TreeItem.GetBrewNote` | src/btTreeItem.cpp:445-451 | a brew note exactly when the kind is BREWNOTE and a brew note is attached, and then that note |
| `BtTreeItems.TreeItem.GetStyle` | src/btTreeItem.cpp:453-459 | a style exactly when the kind is STYLE and a style is attached, and then that style |
| `BtTreeItems.TreeItem.GetFolder` | src/btTreeItem.cpp:461-467 | a folder exactly when the kind is FOLDER and a folder is attached, and then that folder |
| `BtTreeItems.TreeItem.GetThing` | src/btTreeItem.cpp:469-475 | the thing exactly when one is attached and it is a BeerXMLElement (any database item, including one outside the nine classes, but not a folder or a plain QObject), null otherwise |
| `BtTreeItems.GetThingOfOtherObject` | src/btTreeItem.cpp:469-475 | a node carrying a database item of none of the nine classes (a mash) hands it out; one carrying a plain QObject gives null |
| `BtTreeItems.Equal` | src/btTreeItem.cpp:41-48 | nodes of different kinds are unequal; nodes of one kind are equal exactly when their column-0 cells are |
| `BtTreeItems.EqualBrewNotes` | src/btTreeItem.cpp:41-48 | two brew-note nodes are equal exactly when their notes have the same short brew date |
| `BtTreeItems.EqualNamedItems` | src/btTreeItem.cpp:41-48 | where the name column is column 0, two nodes of one kind carrying things of that kind are equal exactly when the names are |
| `BtTreeItems.EqualPlaceholders` | src/btTreeItem.cpp:41-48 | two thing-less nodes of one kind are always equal |
| `BtTreeItems.RecipeNodeWithHop` | src/btTreeItem.cpp:194-198 | a recipe node carrying a hop makes the renderer as written fail, and the corrected one shows "Recipes" |
| `BtTreeItems.BrewNoteNodeWithRecipe` | src/btTreeItem.cpp:332-337 | a brew-note node carrying a recipe makes the renderer as written fail, and the corrected one shows nothing |

## Left out

- `FermentableItemDelegate`: it only creates, positions and destroys editor widgets.
- `reset()` is kept only as a counter of view invalidations. `resizeColumnsToContents`/`resizeRowsToContents`, the `std::cerr` and `Brewtarget::log` diagnostics, and the parent-widget pointer are not modelled.
- `Brewtarget::displayAmount` is not modelled. Its result is the symbolic value `Formatted(amount, unit)`.
- `Unit::qstringToSI` is the function parameter `toSI` of `SetData`.
- `QObject::tr` is taken as the identity on the English labels.
- `QVariant::canConvert`/`toString`/`toInt` are not modelled as Qt's conversion table. An edited value is given by what those conversions yield.
- `QVariant` equality in `operator==` is structural equality of the modelled values. Qt's cross-type comparisons are not modelled.
- The vertical header of `headerData`, a percentage of the total, is not modelled. It uses floating-point division, and divides by zero when the total is 0. Only the horizontal orientation is modelled.
- Amounts are exact reals. The double-precision drift of the running total under repeated add and subtract is not modelled.
- A fermentable's own change broadcast (its setters calling its observers) is not part of this model. `SetData` changes the row's fields. The total catches up when `Notify` is delivered for that row. The `info` argument of `notify` is ignored, as in the code.
- `MultipleObserver` is modelled as the set of observed fermentables. Its signal connections are not modelled.
- Memory ownership is not modelled: the destructor's `qDeleteAll`, and the nodes that `removeChildren` takes out without deleting. The model says only that those nodes leave the list and keep their parent link.
- `btTreeItem::parent()`, `type()` and `getData(column)` are not modelled as separate members. The first two read a field. The third is `data(type(), column)`.
- The domain classes are reduced to the fields the renderers show, plus an identity number. Their database and XML behaviour is not part of this model.
- btFolder.h is not part of this model. `getThing` takes a folder not to be a `BeerXMLElement`.
- src/MashEditor.cpp, src/BeerXMLElement.h and src/config.h are not part of this model: dialog plumbing, declarations whose bodies live elsewhere, and resource-path constants.
- Integers are unbounded throughout. C++ `int` arithmetic in 32 bits is not modelled.
- `BtTreeItems.TreeItem.RemoveChildren`: the guard `position + count > childItems.count()` (src/btTreeItem.cpp:177) adds two 32-bit `int`s. The sum can overflow, for example position 1 and count 2147483647. The overflow is undefined in C++ and usually wraps negative, so the guard passes and `takeAt` is called out of range. The model's unbounded sum rejects such a call and changes nothing.
- `FermentableTableModels.EditThenShow`: the name and type columns pass through C++ strings. They are written with `toString().toStdString()` (src/FermentableTableModel.cpp:270, 278) and read back through `c_str()` (lines 177, 182). The model takes that round trip as lossless. This holds only for text without a NUL character that Qt's C-string codec (Latin-1 unless the application sets another) can encode. A name such as "a", NUL, "b" shows as "a" in the code. The model also takes the fermentable's setters, which are not part of this model, to store their argument unchanged.
- `FermentableTableModels.FermentableTableModel.GetFermentable` requires an index inside the list, because `std::vector::operator[]` is undefined outside it.

## Findings

| source | as written | input that shows it | evidently intended | confidence | as-written member | corrected member |
|---|---|---|---|---|---|---|
| src/FermentableTableModel.cpp:164-171 | `data` rejects only `row >= size` before reading `fermObs[row]`; `setData` (lines 258-263) has the same check | `data(QModelIndex(), Qt::DisplayRole)`: the invalid index has row -1, so `fermObs[-1]` is read | every row outside 0 .. rowCount-1 yields the invalid variant, or `false` from `setData` | medium, not executed | `FermentableTableModels.LookupRowAsWritten` | `FermentableTableModels.LookupRow` |
| src/btTreeItem.cpp:194-198 | the recipe name column tests `thing` and then calls `recipe->name()` on the result of `qobject_cast<Recipe*>` | a RECIPE node with a Hop attached, asked for the recipe name column | test the cast, as the other renderers do, and show the "Recipes" label | low, not executed | `BtTreeItems.DataRecipeAsWritten` | `BtTreeItems.DataRecipe` |
| src/btTreeItem.cpp:332-337 | `dataBrewNote` returns early only when no thing is attached, then calls `bNote->brewDate_short()` on the cast | a BREWNOTE node with a Recipe attached, any column | test the cast and return the invalid variant | low, not executed | `BtTreeItems.DataBrewNoteAsWritten` | `BtTreeItems.DataBrewNote` |
