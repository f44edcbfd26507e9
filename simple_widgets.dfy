/**
 * The widgets the builder makes that hold no changing state: the skinned
 * image (src/skin/widgets/skin_image.rs), the skinned button
 * (src/skin/widgets/skin_button.rs) and the plain container
 * (src/widgets/container.rs). Their images are reduced to dimensions and
 * their pixel loops are not modelled; what remains is their size, the
 * image a button shows in each state, and which events they consume.
 */
module SimpleWidgets {
  import opened Prims
  import WidgetCore
  import SkinTypes

  /** A static image; its size is the image's. */
  datatype SkinImage = SkinImage(image: SkinTypes.Dims) {
    /** `preferred_size`. */
    function PreferredSize(): (r: (u32, u32))
      ensures r == (image.width, image.height)
    {
      (image.width, image.height)
    }
  }

  /** A button with an image per state and an optional action name. */
  datatype SkinButton = SkinButton(normal: SkinTypes.Dims, hover: SkinTypes.Dims, pressed: SkinTypes.Dims, action: Option<string>) {
    /** `preferred_size`: the normal image's size, whatever the other images measure. */
    function PreferredSize(): (r: (u32, u32))
      ensures r == (normal.width, normal.height)
    {
      (normal.width, normal.height)
    }

    /** The image `draw` shows: pressed wins over hovered, which wins over normal. */
    function Face(state: WidgetCore.WidgetState): (r: SkinTypes.Dims)
      ensures state.pressed ==> r == pressed
      ensures !state.pressed && state.hovered ==> r == hover
      ensures !state.pressed && !state.hovered ==> r == normal
    {
      if state.pressed then pressed else if state.hovered then hover else normal
    }

    /** `on_event`: a click is consumed (its action is only logged); nothing else is. */
    function OnEvent(ev: WidgetCore.Event): (consumed: bool)
      ensures consumed <==> ev.Click?
    {
      ev.Click?
    }
  }

  /** A box of a given size with an optional background colour; its children live in the tree. */
  datatype Container = Container(width: u32, height: u32, background: Option<u32>) {
    /** `preferred_size`: the configured size. */
    function PreferredSize(): (r: (u32, u32))
      ensures r == (width, height)
    {
      (width, height)
    }

    /** `with_background`: only the background changes. */
    function WithBackground(color: u32): (r: Container)
      ensures r.background == Some(color)
      ensures r.PreferredSize() == PreferredSize()
    {
      this.(background := Some(color))
    }
  }

  /** `Container::new` and `Container::transparent`, which build the same value: the size, no background. */
  function Transparent(width: u32, height: u32): (r: Container)
    ensures r.background == None
    ensures r.PreferredSize() == (width, height)
  {
    Container(width, height, None)
  }
}
