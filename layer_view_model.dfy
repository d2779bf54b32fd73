/**
 * The editable view of a layer in the layer dialog: a name, a colour and a
 * visibility that may be unset, compared against the layer it was opened
 * from to tell whether anything changed, and turned back into a layer.
 *
 * Change notifications are modelled as the list of property names raised.
 */
module LayerViewModels {
  import opened Wrappers
  import opened Colors
  import opened Drawings

  /** A colour choice: the palette colour and the colour it is shown with. */
  class ColorViewModel {
    const color: IndexedColor
    const displayColor: RealColor

    constructor(color: IndexedColor, displayColor: RealColor)
      ensures this.color == color && this.displayColor == displayColor
    {
      this.color := color;
      this.displayColor := displayColor;
    }
  }

  /**
   * Whether the edited values differ from the original layer: always when
   * there is none, otherwise when the name, the visibility (an unset one
   * differs from both true and false) or the colour differ.
   */
  predicate Dirty(original: Option<Layer>, name: string, isVisible: Option<bool>, color: IndexedColor)
    ensures !Dirty(original, name, isVisible, color) ==>
      original.Some? && isVisible.Some? && original.value == Layer(name, color, isVisible.value, original.value.entities)
    ensures original.Some? && isVisible.Some? && original.value == Layer(name, color, isVisible.value, original.value.entities) ==>
      !Dirty(original, name, isVisible, color)
  {
    original.None? || name != original.value.name || isVisible != Some(original.value.isVisible)
    || color != original.value.color
  }

  /**
   * `GetUpdatedLayer` on the edited values: a new empty layer when there is
   * no original, the original itself when nothing changed, and otherwise
   * the original updated with the edited name, colour and visibility.  An
   * unset visibility becomes false.
   */
  function UpdatedLayer(original: Option<Layer>, name: string, isVisible: Option<bool>, color: IndexedColor): (r: Layer)
    ensures Dirty(original, name, isVisible, color) ==>
      r.name == name && r.color == color && r.isVisible == (isVisible == Some(true))
    ensures original.None? ==> r.entities == []
    ensures original.Some? ==> r.entities == original.value.entities
    ensures !Dirty(original, name, isVisible, color) ==> r == original.value
  {
    var visible := if isVisible.Some? then isVisible.value else false;
    if original.None? then Layer(name, color, visible, [])
    else if Dirty(original, name, isVisible, color) then
      LayerUpdate(original.value, Some(name), Some(color), Some(visible))
    else original.value
  }

  /**
   * Whatever the edits, the updated layer carries the edited values, with
   * an unset visibility read as false; opening it again shows no change.
   */
  lemma UpdatedLayerReflectsEdits(original: Option<Layer>, name: string, isVisible: Option<bool>, color: IndexedColor)
    ensures var r := UpdatedLayer(original, name, isVisible, color);
      && r.name == name && r.color == color && r.isVisible == (isVisible == Some(true))
      && !Dirty(Some(r), r.name, Some(r.isVisible), r.color)
      && UpdatedLayer(Some(r), r.name, Some(r.isVisible), r.color) == r
  {
    var r := UpdatedLayer(original, name, isVisible, color);
    if !Dirty(original, name, isVisible, color) {
      assert isVisible == Some(original.value.isVisible);
    }
  }

  class MutableLayerViewModel {
    var isVisible: Option<bool>
    var color: ColorViewModel
    var name: string
    const layer: Option<Layer>
    /** The property-changed notifications raised so far, by property name. */
    var notifications: seq<string>

    /** A view of a new layer: Auto colour, visible, and dirty from the start. */
    constructor FromName(name: string, colorMap: IndexedColor -> RealColor)
      ensures this.name == name && isVisible == Some(true) && layer.None? && notifications == []
      ensures color.color == Auto && color.displayColor == colorMap(Auto)
      ensures IsDirty()
    {
      this.name := name;
      this.color := new ColorViewModel(Auto, colorMap(Auto));
      this.isVisible := Some(true);
      this.layer := None;
      this.notifications := [];
    }

    /** A view of an existing layer, showing its name, colour and visibility; nothing has changed yet. */
    constructor FromLayer(layer: Layer, colorMap: IndexedColor -> RealColor)
      ensures this.layer == Some(layer) && name == layer.name && isVisible == Some(layer.isVisible)
      ensures color.color == layer.color && color.displayColor == colorMap(layer.color) && notifications == []
      ensures !IsDirty() && GetUpdatedLayer() == layer
    {
      this.layer := Some(layer);
      this.name := layer.name;
      this.color := new ColorViewModel(layer.color, colorMap(layer.color));
      this.isVisible := Some(layer.isVisible);
      this.notifications := [];
    }

    /** `IsDirty`: the edited values differ from the original layer; when they do not, the update is that layer. */
    predicate IsDirty()
      reads this
      ensures IsDirty() <==> Dirty(layer, name, isVisible, color.color)
      ensures !IsDirty() ==> layer.Some? && UpdatedLayer(layer, name, isVisible, color.color) == layer.value
    {
      Dirty(layer, name, isVisible, color.color)
    }

    /** `GetUpdatedLayer`. */
    function GetUpdatedLayer(): (r: Layer)
      reads this
      ensures r == UpdatedLayer(layer, name, isVisible, color.color)
    {
      UpdatedLayer(layer, name, isVisible, color.color)
    }

    /** The `IsVisible` setter: a new value is stored and announced along with `IsDirty`; the same value changes nothing. */
    method SetIsVisible(value: Option<bool>)
      modifies this
      ensures old(isVisible) == value ==> isVisible == old(isVisible) && notifications == old(notifications)
      ensures old(isVisible) != value ==> isVisible == value && notifications == old(notifications) + ["IsVisible", "IsDirty"]
      ensures name == old(name) && color == old(color)
    {
      if isVisible == value {
        return;
      }
      isVisible := value;
      notifications := notifications + ["IsVisible", "IsDirty"];
    }

    /** The `Color` setter: compares the colour choice by reference, like the source. */
    method SetColor(value: ColorViewModel)
      modifies this
      ensures old(color) == value ==> color == old(color) && notifications == old(notifications)
      ensures old(color) != value ==> color == value && notifications == old(notifications) + ["Color", "IsDirty"]
      ensures name == old(name) && isVisible == old(isVisible)
    {
      if color == value {
        return;
      }
      color := value;
      notifications := notifications + ["Color", "IsDirty"];
    }

    /** The `Name` setter. */
    method SetName(value: string)
      modifies this
      ensures old(name) == value ==> name == old(name) && notifications == old(notifications)
      ensures old(name) != value ==> name == value && notifications == old(notifications) + ["Name", "IsDirty"]
      ensures isVisible == old(isVisible) && color == old(color)
    {
      if name == value {
        return;
      }
      name := value;
      notifications := notifications + ["Name", "IsDirty"];
    }

    /**
     * Renaming a view of an existing layer back to the layer's name, after
     * any renames, leaves it clean again if nothing else was edited.
     */
    method RenameAndRevert(other: string) returns (dirtyInBetween: bool, dirtyAfter: bool)
      requires layer.Some? && !IsDirty()
      modifies this
      ensures dirtyInBetween == (other != layer.value.name) && !dirtyAfter
      ensures GetUpdatedLayer() == layer.value
    {
      var original := name;
      SetName(other);
      dirtyInBetween := IsDirty();
      SetName(original);
      dirtyAfter := IsDirty();
    }
  }
}
