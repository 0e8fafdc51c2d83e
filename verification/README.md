# Schema registry of the transaction-validation pipeline

This project models the schema registry in `pipeline/config.py`. The registry is the fixed configuration that a transaction-row validator consults. It holds:

- the ordered list of **required columns** (`job_id`, `date`, `client_name`, `service_type`, `labor_amount`, `total_amount`, `payment_status`);
- the ordered list of **optional columns** (`materials_amount`, `tax_amount`, `payment_method`, `source`, `notes`);
- the **expected columns** (required followed by optional) and their count;
- the **allow-lists** for payment status and payment method, each with a membership predicate;
- the **total tolerance** (0.05) and the **date format** (`%Y-%m-%d`);
- the closed **`ErrorType`** enumeration of seven error kinds, each with a stable string code.

In Dafny, module `Config` (`config.dfy`) holds the registry as constants, the two predicates as total functions, and `ErrorType` as a datatype with a `Code` function. `FromCode` is the inverse of `Code`. It plays the part of the enumeration's own lookup by value (`ErrorType("invalid_date")`). Where that lookup would raise, `FromCode` returns `None`. Module `Seqs` (`seqs.dfy`) defines what "no duplicates" and "disjoint" mean for the column lists. Module `Wrappers` (`wrappers.dfy`) supplies `Option`.

The two predicates have no precondition, so they are defined for every string. They compare exactly. Neither predicate trims or lower-cases its argument; a caller that wants that must do it before calling. So `"PaRTiaL"` is rejected.

### Declarations

Each registry value is a constant of module `Config`:

- `RequiredColumns`: `pipeline/config.py:13-21`.
- `OptionalColumns`: `pipeline/config.py:23-29`.
- `ExpectedColumns`: `pipeline/config.py:31`.
- `ExpectedColumnCount`: `pipeline/config.py:33`.
- `AllowedPaymentStatus`: `pipeline/config.py:35`.
- `AllowedPaymentMethods`: `pipeline/config.py:37-43`.
- `TotalTolerance`: `pipeline/config.py:45`.
- `DateFormat`: `pipeline/config.py:47`. It holds the string `"%Y-%m-%d"` and its pattern meaning is not interpreted.
- `ErrorType`: `pipeline/config.py:49-57`. It is a datatype with one constructor per member.
- `AllErrorTypes`: `pipeline/config.py:49-57`. It lists the members in declaration order, which is the order in which iterating over a Python `Enum` yields them.

## Model

| member | source | states |
|---|---|---|
| Config.ExpectedColumnsLayout | pipeline/config.py:13-33 | The expected columns start with the whole required list and end with the whole optional list, in order. The count is 7 + 5 = 12. |
| Config.ColumnListsDisjoint | pipeline/config.py:13-29 | Neither column list repeats a name, and no name is in both lists. |
| Config.ExpectedColumnsDistinct | pipeline/config.py:31 | The expected-column list has no duplicate names. |
| Config.ColumnClassification | pipeline/config.py:13-31 | A name is an expected column if and only if it is required or optional. It is never both. |
| Config.AmountColumnRoles | pipeline/config.py:13-29 | `labor_amount` and `total_amount` are required and not optional. `materials_amount` and `tax_amount` are optional and not required. |
| Config.IsValidPaymentStatus | pipeline/config.py:5-6 | Holds exactly when the value is "paid", "unpaid" or "partial". Every accepted value is a non-empty lower-case word. |
| Config.IsValidPaymentMethod | pipeline/config.py:9-10 | Holds exactly when the value is "cash", "card", "bank_transfer", "check" or "online". Every accepted value is a non-empty lower-case word. |
| Config.UnnormalisedValuesRejected | pipeline/config.py:5-10 | Any value that is not a non-empty word of lower-case ASCII letters and underscores is rejected by both predicates. This covers every upper-case or accented letter, all white space, and the empty string, because neither predicate normalises its input. |
| Config.RejectedExamples | pipeline/config.py:35-43 | "PaRTiaL", "PENDING", " paid", "PAÍD", and "paid" followed by a no-break space or a form feed are not valid statuses. "Crypto", "Cash" and "other" are not valid methods, so there is no fallback category. |
| Config.ToleranceIsFiveCents | pipeline/config.py:45 | The total tolerance is positive and equals five hundredths. |
| Config.Code | pipeline/config.py:49-57 | Every error code is a non-empty lower-case snake_case word. |
| Config.FromCode | pipeline/config.py:49-57 | Lookup by code returns a kind whose code is the given string. It returns nothing only when no kind has that code. |
| Config.CodeRoundTrip | pipeline/config.py:49-57 | Looking up an error kind's code gives back that kind. |
| Config.CodeInjective | pipeline/config.py:51-57 | Two error kinds with the same code are the same kind. |
| Config.CodesOf | pipeline/config.py:49-57 | The code list has one entry per error kind: entry i is the code of kind i. |
| Config.DistinctKindsHaveDistinctCodes | pipeline/config.py:49-57 | A list of distinct error kinds maps to a list of distinct codes. |
| Config.ErrorTypesEnumerated | pipeline/config.py:49-57 | There are exactly seven error kinds. Each is listed once in declaration order, and their seven codes are pairwise distinct. |

## Left out

- `pipeline/scripts/dummy_data.py`: it generates synthetic data with seeded random numbers, pandas data frames, missing values, float rounding and a CSV write. None of this is deterministic logic with a contract.
- Row validation, date parsing, numeric parsing and total reconciliation: no code for these exists in the modelled files, so the model stops at the registry.
- The floating-point type of `TOTAL_TOLERANCE`: the model uses the exact decimal 0.05 as a `real`.
- The strftime meaning of `DATE_FORMAT`: `Config.DateFormat` is an uninterpreted string constant.
- The `str`/`Enum` mixin mechanics of `ErrorType`: the model keeps only the seven members, their codes and the lookup by code. The mixin's string equality and hashing are left out.
- Mutability of the registry: in `config.py` the column lists are Python lists and the allow-lists are Python sets. Both predicates read the global set at call time, and `EXPECTED_COLUMNS` and `EXPECTED_COLUMN_COUNT` are computed once at import. The model treats every registry value as an immutable constant. So its results (for example, that "other" is not a valid method) assume that no code changes these objects after import. No modelled file changes them.
- Non-string arguments: the Python predicates accept any object. `None` and a NaN float return false, and an unhashable argument raises `TypeError`. The model's predicates take only strings.
