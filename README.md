# Smart Career Advisor quiz: session and scoring model

The application asks eight fixed questions one at a time. Each question has
four agreement options: "Strongly Yes", "Yes", "No" and "Strongly No". The
session keeps two fields. `question_number` is a cursor over the questions.
`answers` lists the option index chosen for every question answered so far.
"Submit & Next" appends the selected option's index and advances the cursor.
Once all eight questions are answered, the result page counts how often each
option was chosen. The result is the vector `[A, B, C, D]`, which a
pre-trained classifier maps to a career label. "Restart Quiz" empties the
session.

The model has two modules:

- `Quiz` (quiz.dfy) holds the constants and the scoring step. `IndexOf`
  models a list's `index` method and `Count` models its `count` method.
  `FeatureVector` builds `[A, B, C, D]`. The lemmas tie these to multisets,
  to the option order and to the number of answers.
- `Session` (session.dfy) holds the class `QuizSession`, with the two
  session fields updated in place by `SubmitAnswer` and `Restart`. Its
  `Valid()` invariant says that there is one answer per question passed,
  that the cursor never passes the last question, and that every answer is
  an option index. `ShowResult` models the result page. The classifier is a
  function parameter.

Where the general description of this family of quiz apps and the code
differ, the model follows the code:

- The code weights options by their position in the list: "Strongly Yes" is
  0 and "Strongly No" is 3. It does not weight agreement 3 down to 0.
- The code has no "back" navigation, and an answer is only ever appended,
  never overwritten.
- The code never scores an incomplete answer list. The result page runs only
  once the cursor has reached the end. `ShowResult` returns `None` before
  that point.

## Model

| member | source | states |
|---|---|---|
| Quiz.IndexOf | app.py:58 | list lookup succeeds exactly when the label is in the list; it returns a position holding the label with no earlier occurrence |
| Quiz.IndexOfDistinct | app.py:33 | in a list without repeats, looking up the element at position i returns i |
| Quiz.OptionIndexInverse | app.py:33 | the label of option i is recorded as index i, for each of the four options |
| Quiz.OptionWeights | app.py:33 | "Strongly Yes", "Yes", "No", "Strongly No" are recorded as 0, 1, 2, 3 |
| Quiz.Count | app.py:69-72 | a count is at most the number of answers; it is 0 exactly when the value is absent; it equals the length exactly when every answer is that value |
| Quiz.CountIsMultiplicity | app.py:69-72 | `answers.count(v)` is the multiplicity of v in the answers |
| Quiz.FeatureVector | app.py:69-74 | the vector has four slots; slot i is the number of answers equal to i; no slot exceeds the number of answers |
| Quiz.FeatureVectorTotal | app.py:65-74 | A + B + C + D never exceeds the number of answers; it equals it exactly when every answer is an option index |
| Quiz.FeatureVectorAppend | app.py:58-59 | recording option x adds one to slot x and leaves the other three slots unchanged |
| Quiz.FeatureVectorPermutation | app.py:69-74 | two answer lists with the same multiset of choices give the same vector, whatever the question order |
| Quiz.CountUniform | app.py:69-72 | n equal answers x put n in slot x and 0 in every other slot |
| Quiz.AllYesFeatureVector | app.py:69-74 | eight answers of index 1 ("Yes") give the vector [0, 8, 0, 0] |
| Session.QuizSession.constructor | app.py:38-40 | a new session has cursor 0, no answers, and satisfies the session invariant |
| Session.QuizSession.CurrentQuestion | app.py:45-54 | a question is shown exactly while the cursor is below 8, and it is the question at the cursor |
| Session.QuizSession.SubmitAnswer | app.py:45-59 | a submission records only while the cursor is below 8 and the choice is an option; it then appends exactly that option's index, keeps the earlier answers as a prefix and advances the cursor by one; otherwise nothing changes; the invariant is kept |
| Session.QuizSession.Restart | app.py:82-84 | from any state, the cursor is 0 and the answers are empty, which is the state of a new session |
| Session.QuizSession.ShowResult | app.py:65-77 | a result exists exactly when the cursor has reached 8; its slot i counts the answers equal to i; A + B + C + D equals the number of answers, which is 8; the career is the classifier's label for that vector |
| Session.AllYesScenario | app.py:56-74 | a new session that submits "Yes" eight times reaches the result page with the vector [0, 8, 0, 0] |

## Left out

- Page configuration, titles, subheaders, the radio widget, buttons, success message, balloons and `st.rerun` (app.py:8-11, 48-56, 60, 79-85) are presentation. The model has one method per button press instead of re-executing the script.
- Loading the pickled model and label encoder (app.py:16-17) is file I/O. A missing or corrupt file is not modelled.
- `model.predict` and `label_encoder.inverse_transform` (app.py:76-77) are foreign calls. They are modelled together as the function parameter `classify`. Its failures are not modelled.
- The `numpy` array (app.py:74) is modelled as a sequence of four naturals.
- Session storage keyed by the hosting framework: the guard "if not already in the session" (app.py:38) is modelled by constructing one `QuizSession` per user session.
- Session.QuizSession.Restart: the "Restart Quiz" button is only rendered on the result page. The model lets `Restart` run from any state, which is a superset of what the page allows.
- Session.QuizSession.SubmitAnswer: a label outside the option list makes `options.index` raise. This is modelled as the outcome `NotAnOption` with the state unchanged. The radio widget never produces such a label.
