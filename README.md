# Registration form, modelled in Dafny

This project models the registration screen of the application (`src/pages/Register.tsx`). The screen has three input fields: email, password and password confirmation. It also has an error line and a Register button. Pressing the button runs the submit handler. The handler checks the fields in a fixed order and stops at the first failure:

1. an empty email;
2. then an empty password or confirmation;
3. then a password that differs from its confirmation.

If all three checks pass, the handler asks the authentication provider to create the account and navigates to `"/"` when the provider succeeds. Every failure becomes one display string. A validation reason or a provider error code is looked up in the error table. The table's entry is shown when it is truthy, and the default message is shown otherwise. Any other failure also shows the default message.

Everything is in `register.dfy`, module `Register`:

- **Pure logic.** `Validate` is the validation chain. `Entry`, `Truthy`, `Lookup` and `MapError` are the catch block's message lookup. `SubmitEffect` is one press of the button as a function. It takes the form state and the provider's answer, and gives the new state, the provider call made (with its arguments) and the navigation triggered.
- **The form object.** `RegisterForm` is a class with the four state fields. It has the three input handlers and `Submit`. Each method's contract gives its whole new state. `Submit`'s outcome is exactly `SubmitEffect`'s.
- **A screen's lifetime.** `Run` folds a sequence of user events (typing in a field, pressing Register with some provider answer) over the mounted state, using `Apply`. It also records every provider call and every navigation. The lemmas about `Run` state what holds over a whole session.

The error table (`authErrorList`) and the default message (`defaultErrorMessage`) are defined in `src/components/login/profile`, which is not part of this model. They are parameters here: a `map<string, string>` and a `string`. The provider's account-creation result is an input of `Submit`. Navigation is an output.

Two consequences of the code are worth stating:
- The code never clears `errorMessage`, so a successful press leaves the last error in place until the navigation away hides the screen (`SubmitEffect`, `ErrorPersists`).
- A validation reason is itself looked up in the error table, so its literal text is not necessarily what is shown (`ReasonShownVerbatim` states when it is).

## Model

| member | source | states |
|---|---|---|
| `Register.Validate` | src/pages/Register.tsx:48-58 | Fails with "Please input an email" exactly when the email is empty, whatever the passwords hold. Fails with "Please input a password" exactly when the email is non-empty and either password field is empty. Fails with "Passwords do not match" exactly when all three fields are non-empty and the passwords differ. Passes exactly when all three checks pass. |
| `Register.Lookup` | src/pages/Register.tsx:65-77 | A truthy table entry (present and non-empty) is the message shown. A missing key or an empty entry gives the default message. The result is always the default or a value from the table. |
| `Register.MapError` | src/pages/Register.tsx:63-80 | A validation reason and a provider code are each looked up in the table. Any other failure gives the default message. The message is always the default or a table value. It is never empty when the default is non-empty. |
| `Register.SharedTable` | src/pages/Register.tsx:64-77 | Validation reasons and provider codes share one table: the same key maps to the same message either way. |
| `Register.ReasonShownVerbatim` | src/pages/Register.tsx:72-77 | A validation reason is displayed verbatim exactly when the table maps it to itself, or when its entry is falsy and the default message equals it. |
| `Register.SubmitEffect` | src/pages/Register.tsx:46-82 | The provider is called exactly when all three checks pass, with the current email and password. Navigation to "/" happens exactly when that call succeeds, and then the state is unchanged. The input fields are never changed. Each validation failure, each provider code and each other failure sets the error line to its mapped message. With a non-empty default, a press that does not navigate leaves a non-empty error line. |
| `Register.RegisterForm.constructor` | src/pages/Register.tsx:29-32 | On mount, email, password, confirmation and error message are all empty. |
| `Register.RegisterForm.HandleEmail` | src/pages/Register.tsx:34-36 | Replaces the email with the typed value verbatim. Nothing else changes. |
| `Register.RegisterForm.HandlePassword` | src/pages/Register.tsx:38-40 | Replaces the password with the typed value verbatim. Nothing else changes. |
| `Register.RegisterForm.HandleConfirmPassword` | src/pages/Register.tsx:42-44 | Replaces the confirmation with the typed value verbatim. Nothing else changes. |
| `Register.RegisterForm.Submit` | src/pages/Register.tsx:46-82 | The new state, the provider call and the navigation are exactly those of `SubmitEffect`. The three input fields keep their values. |
| `Register.Apply` | src/pages/Register.tsx:34-82 | Typing changes neither the calls, the navigations nor the error line. A press adds a provider call, carrying the current fields, exactly when they pass validation. It adds at most one navigation, to "/", and only together with a call. The error line changes only on a press that does not navigate. With a non-empty default, it then becomes non-empty. |
| `Register.Run` | src/pages/Register.tsx:29-82 | Over any session: at most one provider call per press (no retries). No more navigations than calls, and every navigation goes to "/". Every provider call carries a non-empty email and password. The error line is always empty, the default message or a table value. |
| `Register.RunInputs` | src/pages/Register.tsx:34-44 | After any session, each input field holds exactly the value last typed into it, or "" if nothing was typed. No press, failed or not, alters an input. |
| `Register.ErrorPersists` | src/pages/Register.tsx:60-79 | With a non-empty default message, once the error line is non-empty it stays non-empty for the rest of the session, including after a successful press. |

## Left out

- The account-creation call `createUserWithEmailAndPassword` is a foreign, asynchronous backend call. Its result is the `outcome` input of `Submit`.
- The `await` suspension is not modelled. While the call is in flight, the state could change between the checks and the catch block. The model treats a press as one atomic step.
- The auth-state subscription `onAuthStateChanged` is left out, so the redirect when a session already exists is not modelled. It is a foreign event stream with no logic of this screen's own beyond calling `navigate("/")`. Because a successful account creation also signs the new user in, that subscription fires after a successful press too, and the real screen then calls `navigate("/")` a second time. `Run`'s "no more navigations than calls" counts only the submit handler's own navigation (src/pages/Register.tsx:62).
- The router is not modelled. A navigation is reported as the path it would go to. The "Login" link's navigation to "/login" is plumbing outside the submit logic.
- JSX rendering and the Mantine layout are left out. Only the error line's text is modelled, not whether it is displayed.
- The contents of `authErrorList` and `defaultErrorMessage` live in `src/components/login/profile`, which is not part of this model. They are parameters.
- The `instanceof FirebaseError` runtime test is replaced by the tagged `Outcome` and `Failure` datatypes.
- `Lookup` models the table as a map from strings to strings. A JavaScript object lookup could also reach inherited prototype properties (such as a key spelled "constructor"). That case is not modelled.
