# BKGraph context menu, modelled in Dafny

BKGraph is a desktop graphing application built on SDL. This project models its
popup context menu (`Context` in `src/widgets/context.cpp`). A menu is a list of
items, each a label with a bound callback, anchored at a screen position and
attached to a widget. Setting the items copies them into the menu. It also widens
the menu to the larger of the requested width and the widest rendered label plus
padding, so no label is clipped. Item `i` is laid out `i` rows below the anchor.

The model is the single file `context.dfy`, module `Widgets`:

- `Vec2i`, `Item` and `Callback` are datatypes. The `Item` datatype constructor
  models `Context::Item::Item` (src/widgets/context.cpp:5-8), which only stores the
  label and the callback. The callback is an opaque token that is copied and
  never inspected.
- `Widget` is an empty class; the menu keeps a nullable reference to it.
- `Context` is a class with the fields the source updates in place: `position`,
  `size`, `widget` and `items` (the item vector, as a `seq`).
- `Default::itemHeight` and `Default::textOffset` are the module constants
  `ItemHeight` (any positive integer) and `TextOffset` (any non-negative integer).
  Their actual values are program defaults that are not part of this model.
- The font set's `textLength` is the parameter `measure` of the constructor and
  of `SetItems`. It is an arbitrary function from text and height to a width.
- `MenuWidth` is the specification of the width computation. It folds the items
  in order, exactly as the loop in `setItems` does. The lemmas prove that it is
  the maximum of the requested width and the item widths.

## Model

| member | source | states |
|---|---|---|
| `Widgets.Context.constructor` | src/widgets/context.cpp:12-18 | position, widget and the height are the arguments; items and width are what `SetItems(ITMS, SIZ.x)` gives, so the width is at least `SIZ.x` and no label is clipped |
| `Widgets.Context.SetItems` | src/widgets/context.cpp:20-29 | items become exactly `newItems`, element by element; the width is `MenuWidth(newItems, sizeX)`, at least `sizeX`, and clips no label; only `items` and `size.x` change, and `size.y`, `position` and `widget` stay as they were |
| `Widgets.WidthAtLeastRequested` | src/widgets/context.cpp:21-27 | the computed width is never less than the requested width |
| `Widgets.WidthFitsItems` | src/widgets/context.cpp:23-28 | every item's label width plus twice the padding is at most the computed width |
| `Widgets.WidthAttained` | src/widgets/context.cpp:21-28 | the computed width equals the requested width or the width of one of the items |
| `Widgets.WidthIsLeast` | src/widgets/context.cpp:21-28 | every width that is at least the requested one and clips no label is at least the computed width, so the computed width is the least such width |
| `Widgets.WidthOfFitting` | src/widgets/context.cpp:21-28 | starting from a width that already fits every label, the loop leaves the width unchanged |
| `Widgets.WidthIdempotent` | src/widgets/context.cpp:21-28 | recomputing the width of the same items from the width they produced gives the same width |
| `Widgets.ReapplyItems` | src/widgets/context.cpp:20-29 | on a menu whose width fits its labels (true after the constructor and after every `SetItems`), calling `SetItems(items, size.x)` changes neither the items nor the size nor anything else |
| `Widgets.Resize` | src/widgets/context.cpp:22 | resizing the item vector gives the new length and keeps the elements that were already there |
| `Widgets.ItemPosAnchor` | src/widgets/context.cpp:31-33 | the first item sits exactly at the menu's anchor position |
| `Widgets.ItemPosStep` | src/widgets/context.cpp:31-33 | consecutive items share their column and are exactly `ItemHeight` apart |
| `Widgets.ItemPosIncreasing` | src/widgets/context.cpp:31-33 | a later item lies strictly lower than an earlier one |

## Left out

- Font measurement (`World::winSys()->getFontSet().textLength`, src/widgets/context.cpp:25) is a call into SDL font rendering. It is the parameter `measure`, a total deterministic function; its values are not modelled.
- Calling an item's callback (a pointer to a member function of `Program`) is outside the menu; the callback is kept as opaque data.
- Widgets.Resize: the filler items a growing `vector::resize` default-constructs get the label "" and no callback. The `Item` default constructor is not part of this model; the filler is overwritten by the loop before it is read, so its value does not reach any result.
- Widgets.Context.ItemPos: does not model C++ integer conversions. `sizt`, `Default::itemHeight` and `vec2i` are declared outside this model; assuming `sizt` is an unsigned size type and `itemHeight` an `int`, the product and sum are computed unsigned and narrowed back to `int`, which wraps for very large ids. The model uses mathematical integers. `ItemPos` reads the menu and changes nothing, like the `const` member it models; its layout law is stated by ItemPosAnchor, ItemPosStep and ItemPosIncreasing.
- Widgets.Context.SetItems: does not model 32-bit `int` overflow of a label width plus padding; widths are mathematical integers.
- `src/prog/progs.h` holds only declarations of program states (key handling, back navigation, layout and popup creation) whose bodies are not part of this model; its `interacts.at(wgt)` lookups read maps whose population is not shown either.
- `src/engine/world.cpp` is the program entry point that starts the window system; it is event-loop plumbing with nothing to verify.
- Rendering, SDL types, layout trees and popups are presentation code over SDL and are not modelled.
