# Book review app: the save validator, the review store and the average rating

This project models the logic inside the book review app's single activity
(`MainActivity.kt`), a Jetpack Compose screen pair:

- **The Save button of the entry form** (`DetailScreen`). From the four texts
  in the form (title, author, rating text, comment) it first rejects with
  "Fill in all fields" when any of them is blank. Otherwise it parses the
  rating text with `toIntOrNull` and rejects with "Rating must be 1 to 5" when
  that fails or gives a value outside 1..5. Otherwise it hands the texts,
  untrimmed, and the parsed rating to `onSave`. This is
  `DetailScreen.ValidateSave`, a pure function into
  `MissingField | InvalidRating | Accept(review)`. Kotlin's `isBlank`,
  `toIntOrNull` and `Int.toString` are modelled in `KotlinText`.
- **The review store and the screen flag** (`MainActivity.onCreate`). The
  store is four parallel lists (`bookTitles`, `authors`, `ratings`,
  `comments`) beside the flag `showDetailScreen`. The `onSave`, `onBack` and
  `onAddReview` callbacks reassign them. This is the class
  `MainActivity.ReviewApp`, whose invariant `Valid()` says that the lists have
  equal lengths and hold only reviews Save would accept. `SaveClicked` is one
  press of Save: the validator, then `onSave` on acceptance.
- **The average rating of the list screen** (`MainScreen`). It is 0 for no
  ratings and their mean otherwise. This is `MainScreen.Average`, computed
  exactly over the reals.

Files: `wrappers.dfy` (Option), `kotlin_text.dfy`, `detail_screen.dfy`,
`main_screen.dfy`, `main_activity.dfy`.

## Model

| member | source | states |
|---|---|---|
| `KotlinText.IsBlank` | deansExam2feb/app/src/main/java/com/example/deansexam2feb/MainActivity.kt:212 | `String.isBlank`: the empty text is blank, and a text is not blank exactly when some character in it is not whitespace (`IsWhitespace`) |
| `KotlinText.ToIntOrNull` | deansExam2feb/app/src/main/java/com/example/deansexam2feb/MainActivity.kt:210 | a value is returned exactly when the text is an optional sign and at least one digit whose decimal value fits in an `Int`, and the value is that decimal value; so such text has no whitespace anywhere, and a negative value comes from text starting with '-' |
| `KotlinText.ShowInt` | deansExam2feb/app/src/main/java/com/example/deansexam2feb/MainActivity.kt:128 | `Int.toString`, as used to render a card's rating, writes decimal text that `toIntOrNull` accepts and never starts with '+' |
| `KotlinText.ShowNat` | deansExam2feb/app/src/main/java/com/example/deansexam2feb/MainActivity.kt:128 | the digits of a non-negative number are non-empty, all decimal digits, and have no leading zero |
| `KotlinText.DigitsValueShowNat` | deansExam2feb/app/src/main/java/com/example/deansexam2feb/MainActivity.kt:128 | reading back the digits written for n gives n |
| `KotlinText.ParseShowRoundTrip` | deansExam2feb/app/src/main/java/com/example/deansexam2feb/MainActivity.kt:210 | `toIntOrNull(n.toString()) == n` for every `Int` n |
| `KotlinText.BlankNeverParses` | deansExam2feb/app/src/main/java/com/example/deansexam2feb/MainActivity.kt:210-212 | a blank rating text (empty or whitespace only) never parses |
| `KotlinText.PlusAndLeadingZeroAccepted` | deansExam2feb/app/src/main/java/com/example/deansexam2feb/MainActivity.kt:210 | a leading '+' and leading zeros are accepted: "+05" and "05" read as 5 |
| `DetailScreen.Notice` | deansExam2feb/app/src/main/java/com/example/deansexam2feb/MainActivity.kt:212-219 | a notice is shown exactly when Save rejects: "Fill in all fields" for a missing field, "Rating must be 1 to 5" for an invalid rating, two different texts |
| `DetailScreen.ValidateSave` | deansExam2feb/app/src/main/java/com/example/deansexam2feb/MainActivity.kt:209-222 | "missing field" exactly when one of the four texts is blank; "invalid rating" exactly when none is blank and the rating text does not parse to 1..5; an accepted review carries the three texts exactly as typed and the parsed rating, and is valid |
| `DetailScreen.BlankRatingIsMissingField` | deansExam2feb/app/src/main/java/com/example/deansexam2feb/MainActivity.kt:210-219 | the blank check comes first: a blank rating text gives "missing field", never "invalid rating", although it does not parse |
| `DetailScreen.AcceptsShownRating` | deansExam2feb/app/src/main/java/com/example/deansexam2feb/MainActivity.kt:212-221 | a form whose rating is typed as `toString` writes it is accepted, with exactly that review, if and only if the review is valid |
| `DetailScreen.ValidReviewsAreAccepted` | deansExam2feb/app/src/main/java/com/example/deansexam2feb/MainActivity.kt:212-221 | every valid review can be entered: Save accepts it unchanged |
| `DetailScreen.DuneIsAccepted` | deansExam2feb/app/src/main/java/com/example/deansexam2feb/MainActivity.kt:209-222 | "Dune", "Herbert", "5", "Great" is accepted as the review (Dune, Herbert, 5, Great) |
| `DetailScreen.BadRatingsRejected` | deansExam2feb/app/src/main/java/com/example/deansexam2feb/MainActivity.kt:210-219 | rating texts "0", "6", "abc" and " 3" are invalid ratings; an empty rating text is a missing field |
| `MainScreen.Average` | deansExam2feb/app/src/main/java/com/example/deansexam2feb/MainActivity.kt:80 | 0 for no ratings; otherwise the value whose product with the count is the sum of the ratings |
| `MainScreen.SumBounds` | deansExam2feb/app/src/main/java/com/example/deansexam2feb/MainActivity.kt:80 | n ratings each in lo..hi sum to between n*lo and n*hi |
| `MainScreen.AverageInRange` | deansExam2feb/app/src/main/java/com/example/deansexam2feb/MainActivity.kt:80 | a non-empty list of ratings from 1 to 5 averages between 1 and 5 |
| `MainScreen.SumAppend` | deansExam2feb/app/src/main/java/com/example/deansexam2feb/MainActivity.kt:80 | appending a rating raises the sum by exactly that rating |
| `MainScreen.AverageOfThreeAndFive` | deansExam2feb/app/src/main/java/com/example/deansexam2feb/MainActivity.kt:80 | ratings 3 and 5 average 4 |
| `MainActivity.ReviewApp.Reviews` | deansExam2feb/app/src/main/java/com/example/deansexam2feb/MainActivity.kt:31-34 | the i-th review is made of the i-th entry of each of the four lists, one review per entry |
| `MainActivity.ReviewApp.constructor` | deansExam2feb/app/src/main/java/com/example/deansexam2feb/MainActivity.kt:31-36 | the activity starts with four empty lists, on the list screen, in a valid state |
| `MainActivity.ReviewApp.OnSave` | deansExam2feb/app/src/main/java/com/example/deansexam2feb/MainActivity.kt:44-51 | each list grows by its one new element at the end, earlier elements stay in place, the lists stay aligned, the list screen is shown; a valid review keeps the store valid |
| `MainActivity.ReviewApp.OnBack` | deansExam2feb/app/src/main/java/com/example/deansexam2feb/MainActivity.kt:52 | the list screen is shown, all four lists are unchanged, and a valid store stays valid |
| `MainActivity.ReviewApp.OnAddReview` | deansExam2feb/app/src/main/java/com/example/deansexam2feb/MainActivity.kt:61 | the entry form is shown, all four lists are unchanged, and a valid store stays valid |
| `MainActivity.ReviewApp.SaveClicked` | deansExam2feb/app/src/main/java/com/example/deansexam2feb/MainActivity.kt:209-222 | the outcome is the validator's; a rejection changes neither the lists nor the flag; an acceptance appends the accepted review and shows the list screen; the store stays valid, so every stored rating stays in 1..5 |
| `MainActivity.ReviewApp.AverageRating` | deansExam2feb/app/src/main/java/com/example/deansexam2feb/MainActivity.kt:56-80 | the average the list screen shows for the store is 0 when it is empty and otherwise the mean, which lies between 1 and 5 |
| `MainActivity.TwoSavesScenario` | deansExam2feb/app/src/main/java/com/example/deansexam2feb/MainActivity.kt:44-80 | from a fresh start, saving {A, B, 3, ok} and then {C, D, 5, nice} lists titles A then C and shows an average of 4 |

## Left out

- Rendering (Scaffold, columns, cards, text, buttons, theme, spacing) is layout with nothing to state.
- The `Toast` notices and `LocalContext` are platform side effects. Only which message would be shown is modelled, by `DetailScreen.Notice`.
- The `"%.2f"` formatting of the average depends on the locale and on rounding. It is not modelled.
- `MainScreen.Average`: the source averages in `Double`. The model uses the exact real mean, so it does not capture rounding.
- `remember`/`mutableStateOf` recomposition and the per-keystroke `onValueChange` updates of the form fields are framework reactivity. The form's four texts are parameters of `SaveClicked`, so a rejection leaves them as typed by construction.
- `KotlinText.ToIntOrNull`: Kotlin's parser also accepts non-ASCII Unicode decimal digits. The model accepts only '0' to '9'.
- `KotlinText.IsWhitespace` is a fixed list: ASCII 9 to 13, 28 to 32, U+00A0, U+1680, U+2000 to U+200A, U+2028, U+2029, U+202F, U+205F and U+3000. This is the JVM's `Char.isWhitespace`. The library itself is not part of this model.
- `MainActivity.ReviewApp.OnSave`, `OnBack`, `OnAddReview` and `SaveClicked` may be called on either screen. The app only shows Save and Back on the entry form and Add on the list screen, but the callbacks do not check the flag themselves.
- The claim that the store's length equals the number of successful saves is stated per call by `SaveClicked`: one more review on acceptance, none otherwise. No lemma states it over a whole sequence of presses.
- A review's texts must be non-blank, so whitespace-only texts are rejected; accepted texts are stored untrimmed.
