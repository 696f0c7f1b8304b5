# Upload-role assignment of the call-centre quality dashboard

The dashboard (`app.py`) asks the user to upload three Excel workbooks at
once. Before anything is read it decides which upload plays which role:

- the **quality data** workbook (`file_data`), later read from its sheet `DATA`;
- the **MMA** (customer-satisfaction survey) workbook (`file_mma`), later read from its sheet `Data`;
- a **third** workbook (`file_3`), later read from its first sheet.

This project models that decision and proves what it does:

1. **Count gate.** Nothing uploaded stops the page with a warning. Any count
   other than three also stops it with a warning that gives the count. Only
   exactly three uploads go on.
2. **Keyword search** (`pick_file`). It returns the first upload, in upload
   order, whose lower-cased name contains any of the role's keywords:
   - quality data: `data`, `ham`, `kalite`;
   - MMA: `mma`, `anket`, `memnun`;
   - third: `hedef`, `target`, `extra`, `3`.

   Each role searches all three uploads on its own.
3. **Positional fallback.** Roles are filled in the order data, MMA, third.
   A role that found no keyword match gets the first upload, in upload order,
   that no role holds at that moment:
   - the list of uploads held by no role is built once before the data
     check (app.py:28); a data role without a match takes its head with
     `pop(0)`;
   - the MMA role without a match rebuilds the list and takes its head with
     `pop(0)`;
   - the third role without a match rebuilds the list, leaving out only the
     data and MMA uploads, and takes `remaining[0]` without popping.

An upload is identified by its position 0, 1 or 2 in the upload list. Distinct
positions are distinct upload objects, so the `not in` tests of the fallback
compare positions. Only the file names take part in the decision.

What the proofs establish:

- The keyword search returns the first matching upload. It returns nothing
  exactly when no name matches.
- The search ignores the case of ASCII letters. Renaming uploads by changing
  only the case of ASCII letters does not change the assignment.
- A role found by keyword is never overwritten.
- With three uploads the fallback always finds a free upload, so the
  `else uploaded_files[i]` branches can never run.
- A role filled by the fallback never shares its upload with another role.
- Without any keyword match the roles follow upload order.
- The keyword picks are not exclusive. An upload that is the first match
  for both the data and the MMA keywords (for example a first upload named
  with both `kalite` and `mma`) is read as the quality data and as the MMA
  survey.
  Because the keyword `3` occurs in years such as 2023, a single upload can
  even take all three roles. In such cases one or two uploads are never read.
  The three roles get three different uploads exactly when no two keyword
  picks coincide.

What `app.py` does not do:

- There is no test of the sheets a workbook contains; the roles are decided
  from the file names alone.
- Exactly three files are accepted; any other count stops the page.
- The keyword lists are exactly those at app.py:23-25.
- A file can take several roles: the three keyword searches do not exclude
  each other's picks.
- There is no filtering or aggregation of the tables in `app.py`.

Files:

- `strings.dfy` (module `Strings`): ASCII lower-casing and the substring test `k in s`.
- `upload_roles.dfy` (module `UploadRoles`): keywords, sheet names, `pick_file`,
  the fallback, the count gate and the properties of the assignment.
- `scenarios.dfy` (module `UploadScenarios`): what the substring test means for
  real file names (a year containing 3, one upload taking every role).

## Model

| member | source | states |
|---|---|---|
| `Strings.LowerChar` | app.py:18 | a capital letter becomes the small letter at the same alphabet position; every other character is kept; the result is never a capital |
| `Strings.Lower` | app.py:18 | `name.lower()` keeps the length, lowers every character in place and leaves no capital letter |
| `Strings.Contains` | app.py:19 | `k in name` holds exactly when `k` occurs at some position of `name` |
| `Strings.ContainsLowerIgnoresCase` | app.py:18-19 | for a lower-case keyword, searching the lower-cased name finds exactly the places where the name spells the keyword in any mix of capitals and small letters |
| `UploadRoles.SheetOf` | app.py:40-53 | the third workbook is read from its first sheet; the data and MMA workbooks from named sheets that both lower-case to `data` |
| `UploadRoles.Keywords` | app.py:23-25 | every role has a non-empty keyword list, and every keyword is non-empty and lower case |
| `UploadRoles.SheetNamesDifferOnlyInCase` | app.py:40-46 | the two named sheets differ and lower-case to the same name; `SheetOf` records which role reads which |
| `UploadRoles.AnyKeyword` | app.py:19 | `any(k in name for k in keywords)` holds exactly when some keyword of the list occurs in the name |
| `UploadRoles.FirstMatch` | app.py:16-21 | the result is a position of the upload list whose name matches and before which no name matches; it is None exactly when no name matches |
| `UploadRoles.PickFile` | app.py:16-21 | the loop with early return yields the first matching upload, or None |
| `UploadRoles.Pick` | app.py:23-25 | a role's keyword pick is the first upload whose name matches one of the role's keywords, and None exactly when no name does |
| `UploadRoles.FirstMatchIgnoresCase` | app.py:18-19 | two upload lists whose names agree once lower-cased get the same keyword pick |
| `UploadRoles.MatchesMeansCaseInsensitiveOccurrence` | app.py:18-25 | a name matches a role exactly when it spells one of the role's keywords somewhere, ignoring case |
| `UploadRoles.Unclaimed` | app.py:28 | the filtered list holds exactly the upload positions that are not among the excluded picks, in upload order |
| `UploadRoles.FirstFree` | app.py:30-36 | with at most two uploads claimed, some upload is free; the result is the first free one in upload order |
| `UploadRoles.UnclaimedStartsAtFirstFree` | app.py:28-36 | with three uploads and at most two excluded, the filtered list is never empty and starts with the first free upload, so the `else uploaded_files[i]` branches cannot run |
| `UploadRoles.Complete` | app.py:28-36 | all three roles get one of the three uploads; a keyword pick is kept; a role left without one gets an upload that neither other role holds |
| `UploadRoles.Fallback` | app.py:27-36 | the remaining/pop(0)/rebuild sequence gives the reference assignment `Complete` |
| `UploadRoles.Assign` | app.py:23-36 | every role gets one of the three uploads; a role with a keyword pick keeps it; a role without one gets an upload that neither other role holds |
| `UploadRoles.Resolve` | app.py:10-13 | nothing uploaded stops (the `else` branch at app.py:63-65); a count other than three stops with that count; exactly three uploads go on to the assignment |
| `UploadRoles.ResolveUploads` | app.py:10-36 | the count gate, the three keyword searches and the fallback together give `Resolve` |
| `UploadRoles.DistinctIffPicksDistinct` | app.py:23-36 | the roles get pairwise different uploads exactly when no two keyword picks coincide, and then all three uploads are read |
| `UploadRoles.NoKeywordIsPositional` | app.py:28-36 | without any keyword match, the data, MMA and third roles get uploads 0, 1 and 2 |
| `UploadRoles.SharedUploadTakesTwoRoles` | app.py:23-25 | a first upload matching both the data and the MMA keywords, but not the third role's, takes both roles; only two distinct uploads are read |
| `UploadRoles.AssignIgnoresCase` | app.py:18-25 | renaming uploads by changing only the case of ASCII letters leaves the assignment unchanged |
| `UploadScenarios.DigitThreeMatchesThird` | app.py:25 | any name that contains the digit 3 matches the third role |
| `UploadScenarios.DigitThreeInQualityName` | app.py:23-25 | a first upload that matches the data keywords and contains a 3 is both the data and the third workbook; at most two distinct uploads are read |
| `UploadScenarios.OneUploadTakesAllRoles` | app.py:23-36 | a first upload named `Kalite_MMA_2023.xlsx` takes all three roles, whatever the other two uploads are called |

## Left out

- The Streamlit calls (file uploader, `st.warning`, `st.error`, `st.sidebar.success`) are user interface and are not modelled. `st.stop()` is modelled as the outcomes `NothingUploaded` and `WrongCount`; the warning texts are not.
- The upload widget's restriction to `.xlsx` files is left out, because it belongs to the widget, not to the decision.
- Reading the workbooks with `pd.read_excel` (app.py:39-56) is left out, including the error shown and the stop when a sheet is missing or a file cannot be read. That is a foreign spreadsheet parser doing file input. Only the sheet each role is read from is recorded (`SheetOf`).
- `Strings.Lower`: Python's `str.lower()` also lowers non-ASCII letters (for example Turkish `İ`). The model lowers ASCII `A`–`Z` only. All keywords are ASCII, so this matters only for names whose non-ASCII capitals would lower to ASCII letters.
- A Turkish capital `İ` is not recognised as `i`: Python lowers `İ` to `i` followed by a combining dot (U+0307), so `KALİTE.xlsx` does not contain `kalite` and does not match the quality-data role in `app.py`. The model keeps `İ` unchanged, so it does not match there either. The case-insensitivity results cover ASCII letters only.
- `UploadRoles.Fallback`: it is only specified for three uploads, the only count that reaches it past the gate. For fewer uploads, the `else uploaded_files[1]` and `else uploaded_files[2]` branches would index past the end of the list in Python. That case is not modelled.
