# Basic GUI with Threads — a Dafny model

This project models the two stateful parts of a small Swing desktop application.
The first is the animated background panel. It keeps a running flag, a delay
between ticks of at least 50 ms, one of four colour modes, a draw pattern and
a list of circles. On each tick it either repaints the whole background with one
new colour or replaces the circle list by twenty new circles.
The second is the main window. It keeps the text shown in a read-only text
area, that area's caret, and the status bar text, and it owns the panel. Its
menu opens a text file, closes it, exits, or shows message boxes.

- `animation.dfy`, module `Animation`: `AnimatedBackgroundPanel.java`.
  - The panel is a class whose methods update its fields in place.
  - `java.util.Random` is the class `RandomGenerator`. Its draws come from an
    arbitrary `source: nat -> nat`: the k-th call `nextInt(n)` yields
    `source(k) % n`. So every value in `[0, n)` can be drawn and no other.
  - The pure functions `DrawnColor`, `DrawnCircle` and `DrawnCircles` say which
    colour or circles a given run of draws produces, in the order the source
    draws them. The tick methods are proved equal to them.
  - The lemmas `EveryPaletteColorDrawn` and `EveryBoundedCircleDrawn` prove the
    ranges are exact: every colour in a mode's range, and every circle within
    bounds, is produced by some draws.
- `frame.dfy`, module `Frame`: `MainFrame.java`.
  - The window is a class that owns the panel.
  - The file chooser's answer and the result of `Files.readString` come in as
    one `OpenAnswer`: not approved, `Read(name, text)`, or `ReadFailed(name, reason)`.
  - Message boxes come out as `Dialog` values.
  - The window's invariant `Valid` records that the panel keeps its initial
    settings (500 ms, random colours, solid fill). No menu item reaches the
    panel's setters: the three configuration items only show a
    "not implemented" message.

Notes on the code as written:
- There are four colour modes: RANDOM, BLUES, GREENS and GRAYSCALE.
- `stopAnimation` clears the flag and interrupts the thread. It does not wait
  for the thread to end.
- The "Padrões", "Cores" and "Velocidade" items are not wired to the setters.
- The status texts are Portuguese strings, for example
  "Arquivo aberto: " followed by the file name.
- Closing a file sets the status to "Arquivo fechado.".

A tick in the circles pattern calls `nextInt(getWidth())` and
`nextInt(getHeight())`, and `nextInt` throws `IllegalArgumentException` for a
bound that is not positive. The model keeps that path: the tick returns
`IllegalArgument` with the circle list already cleared. The draw of x has
been consumed when only the height is zero.

## Model

| member | source | states |
|---|---|---|
| `Animation.ClampDelay` | AnimatedBackgroundPanel.java:111-113 | the stored delay is at least 50, equals the requested delay when that is at least 50, and is 50 otherwise |
| `Animation.ClampDelayIdempotent` | AnimatedBackgroundPanel.java:111-113 | clamping an already clamped delay changes nothing |
| `Animation.DrawnColor` | AnimatedBackgroundPanel.java:70-80 | a generated colour lies in its mode's range: any colour for RANDOM, (0,0,b) with b in [127,254] for BLUES, (0,g,0) with g in [127,254] for GREENS, r = g = b for GRAYSCALE; every channel lies in [0,255] by its type |
| `Animation.EveryPaletteColorDrawn` | AnimatedBackgroundPanel.java:70-80 | conversely, every colour in a mode's range is generated by some draws, so the ranges above are exact |
| `Animation.DrawnCircle` | AnimatedBackgroundPanel.java:62-65 | a generated circle has x in [0,width), y in [0,height), radius in [10,49] and a colour in the mode's range |
| `Animation.EveryBoundedCircleDrawn` | AnimatedBackgroundPanel.java:62-65 | conversely, every circle within those bounds is generated by some draws |
| `Animation.DrawnCircles` | AnimatedBackgroundPanel.java:61-66 | n drawn circles form a list of exactly n circles, each within the bounds |
| `Animation.DrawnCirclesExtend` | AnimatedBackgroundPanel.java:61-66 | drawing one more circle appends it to the list drawn so far, so the loop builds the list in order |
| `Animation.RandomGenerator.NextInt` | AnimatedBackgroundPanel.java:62-64 | a draw for a positive bound n lies in [0,n) and consumes exactly one draw of the source |
| `Animation.RandomGenerator.constructor` | AnimatedBackgroundPanel.java:32 | a new generator has consumed no draws |
| `Animation.AnimationThread.constructor` | AnimatedBackgroundPanel.java:97 | a new thread is neither started nor interrupted |
| `Animation.AnimationThread.Start` | AnimatedBackgroundPanel.java:98 | starting marks the thread started and changes nothing else |
| `Animation.AnimationThread.Interrupt` | AnimatedBackgroundPanel.java:105 | interrupting marks the thread interrupted and changes nothing else |
| `Animation.AnimatedBackgroundPanel.constructor` | AnimatedBackgroundPanel.java:16-33 | a new panel is stopped with no thread, delay 500, RANDOM, SOLID_FILL, no circles and the default background, and satisfies the invariant |
| `Animation.AnimatedBackgroundPanel.UpdateAnimationState` | AnimatedBackgroundPanel.java:53-68 | keeps the invariant (SOLID_FILL implies no circles, the list holds 0 or 20 circles, delay at least 50, a running panel has a thread); in SOLID_FILL it replaces only the background colour, by the colour the next draws give; in CIRCLES with a positive size the list becomes exactly the 20 circles the next draws give, each within bounds; with a size that is not positive it ends with IllegalArgument and an empty list |
| `Animation.AnimatedBackgroundPanel.RegenerateCircles` | AnimatedBackgroundPanel.java:60-66 | the loop clears the list and adds the 20 circles drawn in order, consuming 20 circles' worth of draws, or stops with IllegalArgument on the first draw whose bound is not positive |
| `Animation.AnimatedBackgroundPanel.NextCircle` | AnimatedBackgroundPanel.java:62-65 | one circle takes its x, y, radius and colour from the next draws, in that order |
| `Animation.AnimatedBackgroundPanel.GenerateColor` | AnimatedBackgroundPanel.java:70-80 | the colour is the one the next draws give for the current mode, lies in that mode's range, and consumes three draws for RANDOM and one otherwise |
| `Animation.AnimatedBackgroundPanel.StartAnimation` | AnimatedBackgroundPanel.java:94-100 | with a recorded thread and the flag set, nothing changes; otherwise the flag is set and a new, started thread is recorded |
| `Animation.AnimatedBackgroundPanel.StopAnimation` | AnimatedBackgroundPanel.java:102-107 | from any state the flag ends false and the recorded thread, if any, is interrupted; the resulting state does not depend on the flag before, so stopping twice is stopping once |
| `Animation.AnimatedBackgroundPanel.SetAnimationDelay` | AnimatedBackgroundPanel.java:111-113 | only the delay changes, to the clamped value |
| `Animation.AnimatedBackgroundPanel.SetColorMode` | AnimatedBackgroundPanel.java:115-117 | only the colour mode changes; delay, pattern, circles and flag are kept |
| `Animation.AnimatedBackgroundPanel.SetDrawPattern` | AnimatedBackgroundPanel.java:119-125 | the pattern becomes the given one; the circle list is emptied exactly when the previous pattern was CIRCLES, re-selecting CIRCLES included, and is otherwise kept; the invariant holds |
| `Frame.MainFrame.constructor` | MainFrame.java:29-72 | a new window shows empty text with the caret at 0 and the status "Pronto."; its panel is running on a new started thread with the default settings |
| `Frame.MainFrame.OpenFile` | MainFrame.java:143-160 | when the chooser is not approved, text, caret and status are kept; after a read the text is the file's, the caret is 0 and the status is "Arquivo aberto: " plus the file name; after a failed read text and caret are kept, the status is "Falha ao abrir o arquivo." and an error box with the failure reason is shown |
| `Frame.MainFrame.CloseFile` | MainFrame.java:162-165 | from any state the text is empty, the caret 0 and the status "Arquivo fechado."; the result does not depend on the state before, so closing twice is closing once |
| `Frame.MainFrame.ExitApplication` | MainFrame.java:167-171 | the panel's running flag ends false and its thread is interrupted; text and status are kept |
| `Frame.MainFrame.WindowClosing` | MainFrame.java:133-138 | closing the window takes the exit path, so the running flag ends false |
| `Frame.MainFrame.ShowNotImplementedDialog` | MainFrame.java:185-190 | the configuration items show an information box saying the feature is not implemented |
| `Frame.MainFrame.ShowAboutDialog` | MainFrame.java:178-183 | the about item shows an information box titled "Sobre" with the fixed application, version and author text |
| `Frame.MainFrame.ShowHelpDialog` | MainFrame.java:173-176 | the help item opens the help window |
| `Frame.MainFrame.Select` | MainFrame.java:81-129 | the three configuration items, help and about change no state at all, so the panel keeps delay 500, RANDOM and SOLID_FILL; open, close and exit act as above |

## Left out

- The animation thread's `run` loop is not modelled: the repeated ticks, `Thread.sleep(animationDelay)`, `repaint()`, and the handling of an interrupt that clears the flag. They concern timing and concurrency. So is the visibility of the `volatile` flag across threads.
- `UpdateAnimationState` takes one width and one height for the whole tick. The source calls `getWidth()` and `getHeight()` again on each of the 20 iterations, so a resize on the event thread during a tick could give circles drawn within different bounds; that interleaving is not modelled.
- The thread's end after an `IllegalArgumentException` escapes a tick is not modelled, because it happens in the run loop. The flag then stays set, and `startAnimation` would not start a new thread. The tick itself does model the exception.
- `paintComponent` and all layout, borders, transparency, window size and menu construction are not modelled. They are rendering through toolkit calls.
- `java.util.Random` is modelled only by the range of each draw. Its seed, its algorithm and its distribution are left out.
- `java.awt.Color` is modelled as three channels in [0,255].
- The file chooser, `Files.readString` and its text decoding, and `JOptionPane` are inputs and outputs here. Whether a message box is modal is not modelled.
- An `IOException` whose message is null is shown by the source as the text "null". Here the failure reason is any string.
- `dispose()` and `System.exit(0)` after stopping the animation are not modelled. They are window and process lifecycle. The model keeps the window's state after exit.
- The help window's text and image (HelpDialog.java) are not modelled; the help item yields `HelpWindow`.
- The entry point (MainApplication.java) only schedules the window's creation on the event thread.
- The caret is modelled only as these actions set it. The user moving it with the mouse or keyboard is not modelled.
- The delay is an unbounded integer. Java's `Math.max(50, delay)` on a 32-bit `int` cannot overflow, so nothing is lost.
