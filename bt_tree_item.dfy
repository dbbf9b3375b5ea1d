/** btTreeItem: a node of the recipe browser's tree. A node has a kind, at
    most one attached domain object (its "thing"), an ordered list of
    children and a link to its parent. Its cells are rendered by the kind's
    renderer; a node without a thing is a category placeholder. */
module BtTreeItems {
  import opened QtValues
  import opened Lists

  /** The node kinds. btTreeItem stores the kind as an int, so any other
      value can be set; UnknownItem stands for every such value, and its code
      is taken to differ from the constants of the nine named kinds. */
  datatype ItemType =
    | RecipeItem | EquipmentItem | FermentableItem | HopItem | MiscItem
    | YeastItem | StyleItem | BrewNoteItem | FolderItem
    | UnknownItem(code: int)

  /** The fields of each domain class the renderers show. The id stands for
      the object's identity. BtTreeItems.Fermentable is the tree's view of a
      fermentable (the four fields its renderer reads); the fermentable table
      keeps its own class FermentableTableModels.Fermentable, and the two are
      not linked in this model. */
  datatype Recipe = Recipe(id: nat, name: string, date: string, style: Option<Style>)
  datatype Equipment = Equipment(id: nat, name: string, boilTimeMin: real)
  datatype Fermentable = Fermentable(id: nat, name: string, typeString: string, colorSrm: real)
  datatype Hop = Hop(id: nat, name: string, formString: string, useString: string)
  datatype Misc = Misc(id: nat, name: string, typeString: string, useString: string)
  datatype Yeast = Yeast(id: nat, name: string, typeString: string, formString: string)
  datatype Style = Style(id: nat, name: string, category: string, categoryNumber: string,
                         styleLetter: string, styleGuide: string)
  datatype BrewNote = BrewNote(id: nat, brewDateShort: string)
  datatype Folder = Folder(id: nat, name: string, path: string, fullPath: string)

  /** The QObject a node can carry, by its class; OtherObject is a QObject of
      none of these classes, which may still be a BeerXMLElement (a database
      item such as a mash) when beerXML is set. */
  datatype Thing =
    | RecipeThing(recipe: Recipe)
    | EquipmentThing(equipment: Equipment)
    | FermentableThing(fermentable: Fermentable)
    | HopThing(hop: Hop)
    | MiscThing(misc: Misc)
    | YeastThing(yeast: Yeast)
    | StyleThing(style: Style)
    | BrewNoteThing(brewNote: BrewNote)
    | FolderThing(folder: Folder)
    | OtherObject(id: nat, beerXML: bool)

  /** The kind whose class the thing belongs to, if any. */
  function KindOf(th: Thing): Option<ItemType> {
    match th
    case RecipeThing(_) => Some(RecipeItem)
    case EquipmentThing(_) => Some(EquipmentItem)
    case FermentableThing(_) => Some(FermentableItem)
    case HopThing(_) => Some(HopItem)
    case MiscThing(_) => Some(MiscItem)
    case YeastThing(_) => Some(YeastItem)
    case StyleThing(_) => Some(StyleItem)
    case BrewNoteThing(_) => Some(BrewNoteItem)
    case FolderThing(_) => Some(FolderItem)
    case OtherObject(_, _) => None
  }

  /** The name a named thing shows in its kind's name column. */
  function NameOf(th: Thing): string
    requires !th.BrewNoteThing? && !th.OtherObject?
  {
    match th
    case RecipeThing(r) => r.name
    case EquipmentThing(e) => e.name
    case FermentableThing(f) => f.name
    case HopThing(h) => h.name
    case MiscThing(m) => m.name
    case YeastThing(y) => y.name
    case StyleThing(s) => s.name
    case FolderThing(f) => f.name
  }

  /** Whether the thing derives from BeerXMLElement: every domain class shown
      here does, a btFolder does not, and another QObject does when it is a
      database item. */
  predicate IsBeerXMLElement(th: Thing) {
    match th
    case FolderThing(_) => false
    case OtherObject(_, beerXML) => beerXML
    case _ => true
  }

  // qobject_cast of the attached thing to each class: None for no thing or
  // a thing of another class.

  function AsRecipe(thing: Option<Thing>): Option<Recipe> {
    if thing.Some? && thing.value.RecipeThing? then Some(thing.value.recipe) else None
  }
  function AsEquipment(thing: Option<Thing>): Option<Equipment> {
    if thing.Some? && thing.value.EquipmentThing? then Some(thing.value.equipment) else None
  }
  function AsFermentable(thing: Option<Thing>): Option<Fermentable> {
    if thing.Some? && thing.value.FermentableThing? then Some(thing.value.fermentable) else None
  }
  function AsHop(thing: Option<Thing>): Option<Hop> {
    if thing.Some? && thing.value.HopThing? then Some(thing.value.hop) else None
  }
  function AsMisc(thing: Option<Thing>): Option<Misc> {
    if thing.Some? && thing.value.MiscThing? then Some(thing.value.misc) else None
  }
  function AsYeast(thing: Option<Thing>): Option<Yeast> {
    if thing.Some? && thing.value.YeastThing? then Some(thing.value.yeast) else None
  }
  function AsStyle(thing: Option<Thing>): Option<Style> {
    if thing.Some? && thing.value.StyleThing? then Some(thing.value.style) else None
  }
  function AsBrewNote(thing: Option<Thing>): Option<BrewNote> {
    if thing.Some? && thing.value.BrewNoteThing? then Some(thing.value.brewNote) else None
  }
  function AsFolder(thing: Option<Thing>): Option<Folder> {
    if thing.Some? && thing.value.FolderThing? then Some(thing.value.folder) else None
  }

  /** The tree's column numbering (RECIPENAMECOL ... FOLDERNUMCOLS). The
      header that fixes the numbers is not part of this model, so they stay
      symbolic. */
  datatype TreeColumns = TreeColumns(
    recipeName: int, recipeBrewDate: int, recipeStyle: int, recipeCount: int,
    equipmentName: int, equipmentBoilTime: int, equipmentCount: int,
    fermentableName: int, fermentableType: int, fermentableColor: int, fermentableCount: int,
    hopName: int, hopForm: int, hopUse: int, hopCount: int,
    miscName: int, miscType: int, miscUse: int, miscCount: int,
    yeastName: int, yeastType: int, yeastForm: int, yeastCount: int,
    styleName: int, styleCategory: int, styleNumber: int, styleLetter: int, styleGuide: int,
    styleCount: int,
    brewNoteCount: int,
    folderName: int, folderPath: int, folderFull: int, folderCount: int)
  {
    /** The columns a kind's renderer names, its name column first. */
    function ColumnsOf(t: ItemType): seq<int> {
      match t
      case RecipeItem => [recipeName, recipeBrewDate, recipeStyle]
      case EquipmentItem => [equipmentName, equipmentBoilTime]
      case FermentableItem => [fermentableName, fermentableType, fermentableColor]
      case HopItem => [hopName, hopForm, hopUse]
      case MiscItem => [miscName, miscType, miscUse]
      case YeastItem => [yeastName, yeastType, yeastForm]
      case StyleItem => [styleName, styleCategory, styleNumber, styleLetter, styleGuide]
      case BrewNoteItem => []
      case FolderItem => [folderName, folderPath, folderFull]
      case UnknownItem(_) => []
    }

    /** A kind's labels are pairwise different and below its column count. */
    predicate KindValid(t: ItemType) {
      var cs := ColumnsOf(t);
      Distinct(cs) && 0 <= ColumnCount(this, t) && forall i :: 0 <= i < |cs| ==> 0 <= cs[i] < ColumnCount(this, t)
    }

    predicate Valid() {
      KindValid(RecipeItem) && KindValid(EquipmentItem) && KindValid(FermentableItem) &&
      KindValid(HopItem) && KindValid(MiscItem) && KindValid(YeastItem) &&
      KindValid(StyleItem) && KindValid(BrewNoteItem) && KindValid(FolderItem)
    }
  }

  /** columnCount(type): the kind's *NUMCOLS constant, 0 for an unknown kind. */
  function ColumnCount(L: TreeColumns, t: ItemType): (n: int)
    ensures t.UnknownItem? ==> n == 0
  {
    match t
    case RecipeItem => L.recipeCount
    case EquipmentItem => L.equipmentCount
    case FermentableItem => L.fermentableCount
    case HopItem => L.hopCount
    case MiscItem => L.miscCount
    case YeastItem => L.yeastCount
    case StyleItem => L.styleCount
    case BrewNoteItem => L.brewNoteCount
    case FolderItem => L.folderCount
    case UnknownItem(_) => 0
  }

  /** The label a placeholder node of a kind shows in its name column. */
  function CategoryLabel(t: ItemType): string {
    match t
    case RecipeItem => "Recipes"
    case EquipmentItem => "Equipment"
    case FermentableItem => "Fermentables"
    case HopItem => "Hops"
    case MiscItem => "Miscellaneous"
    case YeastItem => "Yeast"
    case StyleItem => "Style"
    case FolderItem => "Folder"
    case _ => ""
  }

  // The per-kind renderers: data() for one kind, given the attached thing.
  // Each promises that a thing of another class renders like no thing at
  // all, i.e. as the kind's category placeholder.

  function DataRecipe(L: TreeColumns, thing: Option<Thing>, column: int): (r: Value)
    ensures AsRecipe(thing).None? ==> r == (if column == L.recipeName then Text("Recipes") else Empty)
  {
    var recipe := AsRecipe(thing);
    if column == L.recipeName then
      if recipe.None? then Text("Recipes") else Text(recipe.value.name)
    else if column == L.recipeBrewDate then
      if recipe.Some? then Text(recipe.value.date) else Empty
    else if column == L.recipeStyle then
      if recipe.Some? && recipe.value.style.Some? then Text(recipe.value.style.value.name) else Empty
    else Empty
  }

  /** dataRecipe as written. The name column tests whether a
      thing is attached rather than whether the cast to Recipe succeeded, so a
      thing of another class is dereferenced through a null Recipe pointer
      (None here). */
  function DataRecipeAsWritten(L: TreeColumns, thing: Option<Thing>, column: int): (r: Option<Value>)
    ensures r.None? <==> column == L.recipeName && thing.Some? && !thing.value.RecipeThing?
    ensures r.Some? ==> r.value == DataRecipe(L, thing, column)
  {
    var recipe := AsRecipe(thing);
    if column == L.recipeName then
      if thing.None? then Some(Text("Recipes"))
      else if recipe.None? then None
      else Some(Text(recipe.value.name))
    else if column == L.recipeBrewDate then
      if recipe.Some? then Some(Text(recipe.value.date)) else Some(Empty)
    else if column == L.recipeStyle then
      if recipe.Some? && recipe.value.style.Some? then Some(Text(recipe.value.style.value.name))
      else Some(Empty)
    else Some(Empty)
  }

  function DataEquipment(L: TreeColumns, thing: Option<Thing>, column: int): (r: Value)
    ensures AsEquipment(thing).None? ==> r == (if column == L.equipmentName then Text("Equipment") else Empty)
  {
    var kit := AsEquipment(thing);
    if column == L.equipmentName then
      if kit.None? then Text("Equipment") else Text(kit.value.name)
    else if column == L.equipmentBoilTime then
      if kit.Some? then Number(kit.value.boilTimeMin) else Empty
    else Empty
  }

  function DataFermentable(L: TreeColumns, thing: Option<Thing>, column: int): (r: Value)
    ensures AsFermentable(thing).None? ==> r == (if column == L.fermentableName then Text("Fermentables") else Empty)
  {
    var ferm := AsFermentable(thing);
    if column == L.fermentableName then
      if ferm.Some? then Text(ferm.value.name) else Text("Fermentables")
    else if column == L.fermentableType then
      if ferm.Some? then Text(ferm.value.typeString) else Empty
    else if column == L.fermentableColor then
      if ferm.Some? then Number(ferm.value.colorSrm) else Empty
    else Empty
  }

  function DataHop(L: TreeColumns, thing: Option<Thing>, column: int): (r: Value)
    ensures AsHop(thing).None? ==> r == (if column == L.hopName then Text("Hops") else Empty)
  {
    var hop := AsHop(thing);
    if column == L.hopName then
      if hop.None? then Text("Hops") else Text(hop.value.name)
    else if column == L.hopForm then
      if hop.Some? then Text(hop.value.formString) else Empty
    else if column == L.hopUse then
      if hop.Some? then Text(hop.value.useString) else Empty
    else Empty
  }

  function DataMisc(L: TreeColumns, thing: Option<Thing>, column: int): (r: Value)
    ensures AsMisc(thing).None? ==> r == (if column == L.miscName then Text("Miscellaneous") else Empty)
  {
    var misc := AsMisc(thing);
    if column == L.miscName then
      if misc.None? then Text("Miscellaneous") else Text(misc.value.name)
    else if column == L.miscType then
      if misc.Some? then Text(misc.value.typeString) else Empty
    else if column == L.miscUse then
      if misc.Some? then Text(misc.value.useString) else Empty
    else Empty
  }

  function DataYeast(L: TreeColumns, thing: Option<Thing>, column: int): (r: Value)
    ensures AsYeast(thing).None? ==> r == (if column == L.yeastName then Text("Yeast") else Empty)
  {
    var yeast := AsYeast(thing);
    if column == L.yeastName then
      if yeast.None? then Text("Yeast") else Text(yeast.value.name)
    else if column == L.yeastType then
      if yeast.Some? then Text(yeast.value.typeString) else Empty
    else if column == L.yeastForm then
      if yeast.Some? then Text(yeast.value.formString) else Empty
    else Empty
  }

  function DataBrewNote(thing: Option<Thing>, column: int): (r: Value)
    ensures AsBrewNote(thing).None? ==> r == Empty
  {
    var note := AsBrewNote(thing);
    if note.Some? then Text(note.value.brewDateShort) else Empty
  }

  /** dataBrewNote as written: it returns early only when no
      thing is attached, so a thing of another class is dereferenced through
      a null BrewNote pointer (None here). */
  function DataBrewNoteAsWritten(thing: Option<Thing>, column: int): (r: Option<Value>)
    ensures r.None? <==> thing.Some? && !thing.value.BrewNoteThing?
    ensures r.Some? ==> r.value == DataBrewNote(thing, column)
  {
    if thing.None? then Some(Empty)
    else
      var note := AsBrewNote(thing);
      if note.None? then None else Some(Text(note.value.brewDateShort))
  }

  function DataStyle(L: TreeColumns, thing: Option<Thing>, column: int): (r: Value)
    ensures AsStyle(thing).None? ==> r == (if column == L.styleName then Text("Style") else Empty)
  {
    var style := AsStyle(thing);
    if style.None? && column == L.styleName then Text("Style")
    else if style.Some? then
      if column == L.styleName then Text(style.value.name)
      else if column == L.styleCategory then Text(style.value.category)
      else if column == L.styleNumber then Text(style.value.categoryNumber)
      else if column == L.styleLetter then Text(style.value.styleLetter)
      else if column == L.styleGuide then Text(style.value.styleGuide)
      else Empty
    else Empty
  }

  function DataFolder(L: TreeColumns, thing: Option<Thing>, column: int): (r: Value)
    ensures AsFolder(thing).None? ==> r == Text("Folder")
  {
    var folder := AsFolder(thing);
    if folder.None? then Text("Folder")
    else if column == L.folderName then Text(folder.value.name)
    else if column == L.folderPath then Text(folder.value.path)
    else if column == L.folderFull then Text(folder.value.fullPath)
    else Empty
  }

  /** data(type, column): the cell of a node carrying thing, rendered as the
      given kind; the invalid variant for an unknown kind. */
  function Data(L: TreeColumns, t: ItemType, thing: Option<Thing>, column: int): (v: Value)
    ensures t.UnknownItem? ==> v == Empty
  {
    match t
    case RecipeItem => DataRecipe(L, thing, column)
    case EquipmentItem => DataEquipment(L, thing, column)
    case FermentableItem => DataFermentable(L, thing, column)
    case HopItem => DataHop(L, thing, column)
    case MiscItem => DataMisc(L, thing, column)
    case YeastItem => DataYeast(L, thing, column)
    case StyleItem => DataStyle(L, thing, column)
    case BrewNoteItem => DataBrewNote(thing, column)
    case FolderItem => DataFolder(L, thing, column)
    case UnknownItem(_) => Empty
  }

  /** A node without a thing is a category placeholder: its kind's label in
      the name column and nothing elsewhere; a folder placeholder shows
      "Folder" in every column, a brew-note placeholder shows nothing. */
  lemma PlaceholderRendering(L: TreeColumns, t: ItemType, column: int)
    ensures t == FolderItem ==> Data(L, t, None, column) == Text("Folder")
    ensures t == BrewNoteItem || t.UnknownItem? ==> Data(L, t, None, column) == Empty
    ensures t != FolderItem && t != BrewNoteItem && !t.UnknownItem? ==>
      Data(L, t, None, column) ==
        (if column == L.ColumnsOf(t)[0] then Text(CategoryLabel(t)) else Empty)
  {
  }

  /** An attached brew note shows its short brew date whatever the column. */
  lemma BrewNoteIgnoresColumn(L: TreeColumns, note: BrewNote, column: int)
    ensures Data(L, BrewNoteItem, Some(BrewNoteThing(note)), column) == Text(note.brewDateShort)
  {
  }

  /** A thing of the node's own kind shows its name in the name column. */
  lemma NameColumnShowsName(L: TreeColumns, t: ItemType, th: Thing)
    requires KindOf(th) == Some(t) && t != BrewNoteItem
    ensures Data(L, t, Some(th), L.ColumnsOf(t)[0]) == Text(NameOf(th))
  {
  }

  /** Apart from brew notes and folder placeholders, a cell is empty at every
      column the kind's renderer does not name. */
  lemma UnnamedColumnIsEmpty(L: TreeColumns, t: ItemType, thing: Option<Thing>, column: int)
    requires t != BrewNoteItem
    requires !(t == FolderItem && AsFolder(thing).None?)
    requires column !in L.ColumnsOf(t)
    ensures Data(L, t, thing, column) == Empty
  {
  }

  /** With a valid numbering, every non-empty cell lies below the kind's
      column count, except for brew notes and folder placeholders, which
      ignore the column. */
  lemma CellsWithinColumnCount(L: TreeColumns, t: ItemType, thing: Option<Thing>, column: int)
    requires L.Valid()
    requires t != BrewNoteItem
    requires !(t == FolderItem && AsFolder(thing).None?)
    requires Data(L, t, thing, column) != Empty
    ensures 0 <= column < ColumnCount(L, t)
  {
    if column !in L.ColumnsOf(t) {
      UnnamedColumnIsEmpty(L, t, thing, column);
    }
    assert L.KindValid(t);
  }

  class TreeItem {
    var itemType: ItemType
    var thing: Option<Thing>
    var children: seq<TreeItem>
    var parent: TreeItem?

    /** A new node of kind t under parent, with no thing and no children. */
    constructor (t: ItemType, parent: TreeItem?)
      ensures itemType == t && thing == None && children == [] && this.parent == parent
    {
      itemType := t;
      thing := None;
      children := [];
      this.parent := parent;
    }

    /** child(number): the child at that position, null outside the list. */
    function Child(number: int): (c: TreeItem?)
      reads this
      ensures c != null <==> 0 <= number < |children|
      ensures c != null ==> c == children[number]
    {
      if 0 <= number < |children| then children[number] else null
    }

    function ChildCount(): (n: nat)
      reads this
      ensures n == |children|
    {
      |children|
    }

    /** childNumber(): this node's position among its parent's children; 0
        for a root, -1 when the parent no longer lists it. */
    function ChildNumber(): (r: int)
      reads this, parent
      ensures parent == null ==> r == 0
      ensures parent != null && this in parent.children ==>
        0 <= r < |parent.children| && parent.children[r] == this && this !in parent.children[..r]
      ensures parent != null && this !in parent.children ==> r == -1
    {
      if parent == null then 0 else IndexOf(parent.children, this)
    }

    /** setData(t, d): attaches d (or nothing) and sets the kind. */
    method SetData(t: ItemType, d: Option<Thing>)
      modifies this`itemType, this`thing
      ensures itemType == t && thing == d
    {
      thing := d;
      itemType := t;
    }

    method SetType(t: ItemType)
      modifies this`itemType
      ensures itemType == t
    {
      itemType := t;
    }

    /** insertChildren: inserts count new placeholder nodes of kind t at
        position; fails, changing nothing, when position is outside
        0 .. childCount. A count of 0 or less inserts nothing. */
    method InsertChildren(position: int, count: int, t: ItemType) returns (ok: bool)
      modifies this`children
      ensures ok <==> 0 <= position <= |old(children)|
      ensures !ok ==> children == old(children)
      ensures ok ==> var m := if count < 0 then 0 else count;
        |children| == |old(children)| + m &&
        children[..position] == old(children)[..position] &&
        children[position + m..] == old(children)[position..] &&
        forall k :: position <= k < position + m ==>
          fresh(children[k]) && children[k].itemType == t && children[k].thing == None &&
          children[k].children == [] && children[k].parent == this && children[k].ChildNumber() == k
    {
      if position < 0 || position > |children| {
        return false;
      }
      var i := 0;
      while i < count
        invariant 0 <= i && (count < 0 ==> i == 0) && (0 <= count ==> i <= count)
        invariant |children| == |old(children)| + i
        invariant children[..position] == old(children)[..position]
        invariant children[position + i..] == old(children)[position..]
        invariant forall k :: position <= k < position + i ==>
          fresh(children[k]) && children[k].itemType == t && children[k].thing == None &&
          children[k].children == [] && children[k].parent == this
        invariant forall j, k :: position <= j < k < position + i ==> children[j] != children[k]
      {
        var item := new TreeItem(t, this);
        children := children[..position + i] + [item] + children[position + i..];
        i := i + 1;
      }
      forall k | position <= k < position + i
        ensures children[k].ChildNumber() == k
      {
        forall j | 0 <= j < k ensures children[j] != children[k] {
          if j < position {
            assert children[j] == old(children)[j];
          }
        }
        assert children[k] !in children[..k];
      }
      return true;
    }

    /** removeChildren: takes the count children starting at position out of
        the list; fails, changing nothing, when the range runs outside it. The
        removed nodes are not destroyed and keep their parent link. */
    method RemoveChildren(position: int, count: int) returns (ok: bool)
      modifies this`children
      ensures ok <==> 0 <= position && position + count <= |old(children)|
      ensures !ok || count <= 0 ==> children == old(children)
      ensures ok && count > 0 ==>
        children == old(children)[..position] + old(children)[position + count..]
    {
      if position < 0 || position + count > |children| {
        return false;
      }
      var row := 0;
      while row < count
        invariant 0 <= row && (count < 0 ==> row == 0) && (0 <= count ==> row <= count)
        invariant count <= 0 ==> children == old(children)
        invariant 0 < count ==> children == old(children)[..position] + old(children)[position + row..]
      {
        children := RemoveAt(children, position);
        row := row + 1;
      }
      return true;
    }

    // The typed getters: the thing, narrowed to the getter's class, when the
    // node's kind is that class's kind; null otherwise.

    function GetRecipe(): (r: Option<Recipe>)
      reads this
      ensures r.Some? <==> itemType == RecipeItem && thing.Some? && thing.value.RecipeThing?
      ensures r.Some? ==> thing == Some(RecipeThing(r.value))
    {
      if itemType == RecipeItem then AsRecipe(thing) else None
    }

    function GetEquipment(): (r: Option<Equipment>)
      reads this
      ensures r.Some? <==> itemType == EquipmentItem && thing.Some? && thing.value.EquipmentThing?
      ensures r.Some? ==> thing == Some(EquipmentThing(r.value))
    {
      if itemType == EquipmentItem then AsEquipment(thing) else None
    }

    function GetFermentable(): (r: Option<Fermentable>)
      reads this
      ensures r.Some? <==> itemType == FermentableItem && thing.Some? && thing.value.FermentableThing?
      ensures r.Some? ==> thing == Some(FermentableThing(r.value))
    {
      if itemType == FermentableItem then AsFermentable(thing) else None
    }

    function GetHop(): (r: Option<Hop>)
      reads this
      ensures r.Some? <==> itemType == HopItem && thing.Some? && thing.value.HopThing?
      ensures r.Some? ==> thing == Some(HopThing(r.value))
    {
      if itemType == HopItem then AsHop(thing) else None
    }

    function GetMisc(): (r: Option<Misc>)
      reads this
      ensures r.Some? <==> itemType == MiscItem && thing.Some? && thing.value.MiscThing?
      ensures r.Some? ==> thing == Some(MiscThing(r.value))
    {
      if itemType == MiscItem then AsMisc(thing) else None
    }

    function GetYeast(): (r: Option<Yeast>)
      reads this
      ensures r.Some? <==> itemType == YeastItem && thing.Some? && thing.value.YeastThing?
      ensures r.Some? ==> thing == Some(YeastThing(r.value))
    {
      if itemType == YeastItem then AsYeast(thing) else None
    }

    function GetBrewNote(): (r: Option<BrewNote>)
      reads this
      ensures r.Some? <==> itemType == BrewNoteItem && thing.Some? && thing.value.BrewNoteThing?
      ensures r.Some? ==> thing == Some(BrewNoteThing(r.value))
    {
      if itemType == BrewNoteItem && thing.Some? then AsBrewNote(thing) else None
    }

    function GetStyle(): (r: Option<Style>)
      reads this
      ensures r.Some? <==> itemType == StyleItem && thing.Some? && thing.value.StyleThing?
      ensures r.Some? ==> thing == Some(StyleThing(r.value))
    {
      if itemType == StyleItem && thing.Some? then AsStyle(thing) else None
    }

    function GetFolder(): (r: Option<Folder>)
      reads this
      ensures r.Some? <==> itemType == FolderItem && thing.Some? && thing.value.FolderThing?
      ensures r.Some? ==> thing == Some(FolderThing(r.value))
    {
      if itemType == FolderItem && thing.Some? then AsFolder(thing) else None
    }

    /** getThing(): the thing as a BeerXMLElement; null when nothing is
        attached or the thing is not one. */
    function GetThing(): (r: Option<Thing>)
      reads this
      ensures r.Some? <==> thing.Some? && IsBeerXMLElement(thing.value)
      ensures r.Some? ==> r == thing
    {
      if thing.Some? && IsBeerXMLElement(thing.value) then thing else None
    }
  }

  /** A database item of none of the nine classes, such as a mash, is still
      handed out by getThing(); a plain QObject is not. */
  lemma GetThingOfOtherObject(node: TreeItem, id: nat, beerXML: bool)
    requires node.thing == Some(OtherObject(id, beerXML))
    ensures node.GetThing() == (if beerXML then node.thing else None)
  {
  }

  /** operator==: nodes of different kinds differ; nodes of one kind are equal
      when their column-0 cells are. */
  function Equal(L: TreeColumns, lhs: TreeItem, rhs: TreeItem): (r: bool)
    reads lhs, rhs
    ensures lhs.itemType != rhs.itemType ==> !r
    ensures lhs.itemType == rhs.itemType ==>
      (r <==> Data(L, lhs.itemType, lhs.thing, 0) == Data(L, rhs.itemType, rhs.thing, 0))
  {
    if lhs.itemType != rhs.itemType then false
    else Data(L, lhs.itemType, lhs.thing, 0) == Data(L, rhs.itemType, rhs.thing, 0)
  }

  /** Two brew-note nodes carrying notes are equal exactly when the notes
      have the same short brew date. */
  lemma EqualBrewNotes(L: TreeColumns, a: TreeItem, b: TreeItem, x: BrewNote, y: BrewNote)
    requires a.itemType == BrewNoteItem && b.itemType == BrewNoteItem
    requires a.thing == Some(BrewNoteThing(x)) && b.thing == Some(BrewNoteThing(y))
    ensures Equal(L, a, b) <==> x.brewDateShort == y.brewDateShort
  {
    BrewNoteIgnoresColumn(L, x, 0);
    BrewNoteIgnoresColumn(L, y, 0);
  }

  /** Where a kind's name column is column 0, two nodes of that kind carrying
      things of that kind are equal exactly when the things' names are. */
  lemma EqualNamedItems(L: TreeColumns, a: TreeItem, b: TreeItem)
    requires a.itemType == b.itemType && a.itemType != BrewNoteItem
    requires a.thing.Some? && KindOf(a.thing.value) == Some(a.itemType)
    requires b.thing.Some? && KindOf(b.thing.value) == Some(b.itemType)
    requires L.ColumnsOf(a.itemType)[0] == 0
    ensures Equal(L, a, b) <==> NameOf(a.thing.value) == NameOf(b.thing.value)
  {
    NameColumnShowsName(L, a.itemType, a.thing.value);
    NameColumnShowsName(L, b.itemType, b.thing.value);
  }

  /** Two placeholder nodes of one kind are always equal. */
  lemma EqualPlaceholders(L: TreeColumns, a: TreeItem, b: TreeItem)
    requires a.itemType == b.itemType && a.thing == None && b.thing == None
    ensures Equal(L, a, b)
  {
  }

  /** The recipe renderer as written fails on a recipe node carrying a hop,
      where the intended one shows the placeholder label. */
  lemma RecipeNodeWithHop(L: TreeColumns, h: Hop)
    ensures DataRecipeAsWritten(L, Some(HopThing(h)), L.recipeName) == None
    ensures DataRecipe(L, Some(HopThing(h)), L.recipeName) == Text("Recipes")
  {
  }

  /** The brew-note renderer as written fails on a brew-note node carrying a
      recipe, where the intended one shows nothing. */
  lemma BrewNoteNodeWithRecipe(r: Recipe, column: int)
    ensures DataBrewNoteAsWritten(Some(RecipeThing(r)), column) == None
    ensures DataBrewNote(Some(RecipeThing(r)), column) == Empty
  {
  }

  /** Removing the children just inserted gives the old child list back. */
  method InsertThenRemove(node: TreeItem, position: int, count: int, t: ItemType)
    returns (ok: bool)
    modifies node`children
    ensures ok <==> 0 <= position <= |old(node.children)|
    ensures node.children == old(node.children)
  {
    ok := node.InsertChildren(position, count, t);
    if ok {
      var removed := node.RemoveChildren(position, count);
      assert count > 0 ==> node.children == old(node.children)[..position] + old(node.children)[position..];
      assert old(node.children)[..position] + old(node.children)[position..] == old(node.children);
    }
  }
}
