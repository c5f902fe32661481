# pyguibank statement import, modelled in Dafny

pyguibank keeps a personal finance database built from the statements that
banks, card issuers, lenders and retirement plans send. This project models
the part that turns one statement file into rows of that database:

- **Classification** (`src/core/parse.py`): the file's text is lowered and
  matched against each statement type's search string, whose terms are
  joined by `&&`. The first type whose terms all occur is chosen.
- **The plugin registry** (`src/core/plugins.py`): statement types map to
  parser plugins. A plugin is loaded once and then answered from the cache.
- **Institution parsers**: each reads a statement's lines into a
  `Statement` with its period, its accounts, their balances and their
  transactions. They come in three families, all modelled:
  - the plugins under `src/plugins`;
  - the class parsers under `src/core/parsepdf` and `src/core/parsecsv`;
  - the older function parsers under `src/parse` and `src/parsers`.

  Most parsers follow the same steps:
  - find the first line holding or starting with a label;
  - take the word after it;
  - read it as an amount or a date;
  - turn each transaction line into a `Transaction`.

  A few also keep a running balance.
- **Validation** (`src/core/validation.py`): the checks on a parsed
  statement. The `Transaction`, `Account` and `Statement` dataclasses,
  with the rules that each needs a date, an amount and a description.
- **Deduplication and storage** (`src/core/statements.py`,
  `src/core/db.py`):
  - a statement is recognised again by the MD5 of its file;
  - its transactions get distinct MD5 keys;
  - transactions already stored are skipped;
  - the rows are inserted into tables whose keys must be unique.

The model's conventions:

- Amounts are integer cents.
- Dates are day ordinals, as Python's `date.toordinal()` gives them.
- Python's exceptions become the `Err` case of a `Result`.
- Classes whose fields the source updates (the parsers, the importer, the
  validated `Account`/`Statement` objects, the database tables) are Dafny
  classes. Their methods are proved against functions of the inputs.
- Every loop is a `while` loop with its invariants.

## Model

| member | source | states |
|---|---|---|
| Parse.Candidates | src/core/parse.py:67-71 | The statement types consulted: every rule when no extension is given, otherwise exactly the rules of that extension; never more rules than there are |
| Parse.NoExtensionKeepsAll | src/core/parse.py:69-70 | Without an extension the query has no WHERE clause, so every rule is a candidate, in order |
| Parse.Matches | src/core/parse.py:76-80 | Definition, no contract of its own: every "&&"-separated term of the lowered search string occurs in the lowered text. MatchIgnoresCase and SingleTermRule state its properties |
| Parse.MatchIgnoresCase | src/core/parse.py:76-80 | A rule matches a text exactly when it matches the text lowered: the search is case-insensitive |
| Parse.SingleTermRule | src/core/parse.py:78-80 | A search string without "&&" matches exactly the texts that contain it, ignoring case |
| Parse.TermsRebuildSearchString | src/core/parse.py:78-79 | Splitting the lowered search string on "&&" loses nothing: the terms joined with "&&" give it back, and no term holds "&&" |
| Parse.FirstMatch | src/core/parse.py:77-85 | The index found is that of a matching rule with no matching rule before it; none is found exactly when no rule from the start matches |
| Parse.Selected | src/core/parse.py:62-91 | Definition, no contract of its own: the first matching candidate's statement type and parser, or ValueError. SelectedOkIffSomeMatch and FirstRuleWins state its properties, and SelectParser is proved against it |
| Parse.SelectParser | src/core/parse.py:62-91 | The loop over the rule rows with its early break returns the selection defined by the first matching candidate, or ValueError |
| Parse.SelectedOkIffSomeMatch | src/core/parse.py:81-89 | A statement type is recognised exactly when some candidate rule matches; otherwise ValueError is raised |
| Parse.FirstRuleWins | src/core/parse.py:75-85 | For any extension, when candidate `i` matches and no earlier candidate does, the selection is candidate `i`'s statement type and parser, whatever later candidates match |
| Parse.FirstRuleOfTableWins | src/core/parse.py:71-85 | With no extension, the first matching rule of the whole table decides the statement type and the parser |
| Parse.Dispatch | src/core/parse.py:235-244 | The lowered suffix routes ".pdf", ".csv" and ".xlsx" to their readers, and anything else raises ValueError |
| Parse.Route | src/core/parse.py:120-146 | A parser name is routed exactly when its reader's match statement names it; any other name raises ValueError |
| Parse.Classify | src/core/parse.py:110-148 | A file is classified exactly when its suffix is supported, a rule of that extension matches its text and the rule's parser is one the reader routes; each failure is the ValueError of the step that fails |
| Parse.NonBlankLines | src/core/parse.py:104 | The raw lines are the ordered filter of the text's lines by "not blank": none of them is blank and every non-blank line appears |
| Parse.NonBlankLinesInOrder | src/core/parse.py:104 | The `j`-th raw line is the line at the `j`-th non-blank index; those indices increase and cover every non-blank line, so order and repeats are kept |
| Parse.ReadPdf | src/core/parse.py:94-107 | The text is the pages joined by newlines; the raw lines are exactly the non-blank lines of that text in order; each cleaned line is its raw line with runs of whitespace collapsed, so it has the same words |
| Parse.CollapseAll | src/core/parse.py:105 | One cleaned line per raw line, each with its whitespace runs collapsed to single spaces and so with the same words |
| Parse.CleanLineSettled | src/core/parse.py:105 | Collapsing a non-blank line's whitespace leaves it non-blank, and collapsing again changes nothing |
| Parse.CleanSheet | src/core/parse.py:192 | The clean sheet is the ordered filter of the rows by "has a cell that is not None": it keeps exactly those rows and drops no such row |
| Parse.CleanSheetInOrder | src/core/parse.py:192 | The `j`-th row kept is the row at the `j`-th index with a value; those indices increase and cover every such row, so order and repeats are kept |
| Parse.CleanSheetKeepsHeader | src/core/parse.py:192 | A first row with a value (the header) is still the first row after cleaning |
| Plugins.LastDot | src/core/plugins.py:51 | The position of the last "." of a file name, or -1 when it has none |
| Plugins.Stem | src/core/plugins.py:51 | The stem is a prefix of the name that stops at the last dot when there is a suffix after it |
| Plugins.StemOfPyc | src/core/plugins.py:48-51 | The plugin named by "name.pyc" is "name" |
| Plugins.ValidateParserClass | src/build_plugins.py:27-42 | A parser class passes exactly when every required variable is present, a str and not blank; otherwise ValueError |
| Plugins.ImportFrom | src/core/plugins.py:7 | A `from ... import` succeeds exactly when the module defines every name asked for; otherwise ImportError |
| Plugins.PluginsImportRaises | src/core/plugins.py:7 | As written, `core.interfaces` defines neither `validate_parser` nor `class_variables`, so importing the module raises ImportError and no plugin is ever loaded; with those names defined the import succeeds |
| Plugins.LoadPluginsAsWritten | src/core/plugins.py:7-98 | Definition, no contract of its own: the module's import line first, then the files loaded; PluginsImportRaises states its outcome |
| Plugins.LoadPlugin | src/core/plugins.py:45-75 | A plugin loads exactly when its module executes, defines a Parser that implements the interface and overrides every required variable with a non-blank str, the rule of `validate_parser_class` at src/build_plugins.py:27-42; the name is the file's stem and the metadata holds exactly the required variables' values; a missing loader raises ImportError, a missing Parser ValueError, a Parser not implementing the interface TypeError |
| Plugins.LoadPluginValidates | src/core/plugins.py:65-70 | A Parser that implements the interface loads exactly when the validator passes, and the validator's ValueError is re-raised as ImportError |
| Plugins.LoadAll | src/core/plugins.py:87-98 | The registry's parsers and metadata always have the same plugin names |
| Plugins.LoadAllStep | src/core/plugins.py:90-98 | One more file: a plugin that fails to load is skipped, and one that loads is stored under its name in both dicts |
| Plugins.FailedFileSkipped | src/core/plugins.py:97-98 | A file whose plugin fails to load leaves the registry as if it were absent |
| Plugins.LoadAllNames | src/core/plugins.py:90-95 | A name is registered exactly when some file's plugin loads under that name |
| Plugins.LastLoadWins | src/core/plugins.py:94-95 | When two files give the same plugin name, the later one's parser and metadata are kept |
| Plugins.PluginManager.constructor | src/core/plugins.py:79-81 | A new manager has no plugins and no metadata yet |
| Plugins.PluginManager.LoadPlugins | src/core/plugins.py:83-98 | The dicts are reset and filled from the files: they equal the registry of every plugin that loads, with the same names in both |
| Plugins.PluginManager.GetParser | src/core/plugins.py:100-107 | A loaded plugin's parser is returned; an unknown name raises ImportError, and before any loading the lookup fails with AttributeError |
| Statements.StandardizeFname | src/core/statements.py:32-47 | The archive name is the nickname, two eight-digit dates and the suffix: its length is the name's plus 18 plus the suffix's |
| Statements.StandardizeFnameRoundTrip | src/core/statements.py:36-46 | The name can be read back: the nickname, "_", the start date as `%Y%m%d`, "_", the end date as `%Y%m%d`, then the suffix in lower case; both dates parse back to the ordinals written |
| Statements.DistinctDatesDistinctFnames | src/core/statements.py:32-47 | Two statements of one account with different periods get different archive names |
| Statements.IdsFor | src/core/statements.py:54-55 | The query returns no more ids than the Statements table has rows |
| Statements.IdsForMembers | src/core/statements.py:54-55 | The ids returned are exactly those of the rows with that MD5 |
| Statements.GetStatementId | src/core/statements.py:50-61 | The lookup gives -1, an existing id, or KeyError |
| Statements.GetStatementIdMeaning | src/core/statements.py:56-59 | -1 exactly when no statement has that MD5; any other id is that of a statement with that MD5 |
| Statements.IdsForSome | src/core/statements.py:56-57 | The query finds some id exactly when some row carries the MD5 |
| Statements.IdsForCount | src/core/statements.py:58-61 | The query finds two or more ids exactly when the MD5 is repeated in the table |
| Statements.KeyErrorIffRepeated | src/core/statements.py:60-61 | The lookup raises KeyError exactly when the MD5 is not unique in the Statements table |
| Statements.IdsForAppend | src/core/statements.py:54-55 | The query over a table with one more row gives the old ids followed by the new row's |
| Statements.NewStatementFound | src/core/statements.py:135-138 | After inserting a statement whose MD5 was absent, the lookup returns the new row's id |
| Statements.StatementAlreadyImported | src/core/statements.py:90-94 | True exactly when some statement has the file's MD5; KeyError exactly when the MD5 is repeated |
| Statements.NextStatementId | src/core/statements.py:135-138 | The id SQLite gives the new statement row is positive |
| Statements.NextStatementIdFresh | src/core/statements.py:135-138 | The new statement's id exceeds every id in the table |
| Statements.DistinctRowsDistinctDigests | src/core/statements.py:181 | Under an injective hash, different rows have different digests |
| Statements.Renamed | src/core/statements.py:184-185 | A row renamed k times keeps every value but the description, which grows by " D" k times |
| Statements.RenamedZero | src/core/statements.py:180-181 | A row not renamed is the row itself |
| Statements.RenamedStep | src/core/statements.py:184-185 | One more renaming appends " D" to the last value, the description |
| Statements.RenamedHashesSize | src/core/statements.py:182-186 | The digests of k successive renamings are k distinct values |
| Statements.SeenBound | src/core/statements.py:182 | When the digests of renamings 0..k are all seen, at least k + 1 digests are seen, so the while loop ends |
| Statements.Suffixes | src/core/statements.py:182-186 | The number of renamings the while loop makes: the first whose digest is unseen, every earlier one seen |
| Statements.SuffixesLeast | src/core/statements.py:182-186 | The loop stops at the least renaming whose digest is unseen |
| Statements.Hashed | src/core/statements.py:170-189 | One hashed row per transaction |
| Statements.HashedShape | src/core/statements.py:180-188 | Each hashed row is its transaction, possibly with " D" appended to the description, followed by its digest, which was not among those seen before |
| Statements.HashedDigestsDistinct | src/core/statements.py:170-189 | The digests appended to a statement's transactions are pairwise different |
| Statements.UnseenRowKept | src/core/statements.py:181-188 | A row whose digest has not been appended before is kept unchanged, with its own digest |
| Statements.RenameUntilUnseen | src/core/statements.py:181-186 | The while loop returns the least renaming of the row whose digest is not in the list, with that digest |
| Statements.HashTransactions | src/core/statements.py:170-189 | The loop over the rows gives the hashed rows defined above |
| Statements.AccountInfoOf | src/core/statements.py:143-155 | A missing account number or nickname raises ValueError, and a statement without accounts IndexError |
| Statements.AccountInfoOfMeaning | src/core/statements.py:150-155 | The info is found exactly when every account number has an id and the first one's account has a nickname; the ids are those of the numbers, and the nickname and the main id are those of the first account |
| Statements.GetAccountInfo | src/core/statements.py:143-155 | The loop over the account numbers gives the info defined above |
| Statements.AccountNumbers | src/core/statements.py:249 | `list(data.keys())`: the accounts' numbers, in order |
| Statements.Prefixed | src/core/statements.py:264 | Every row gains the value in front, and nothing else changes |
| Statements.NonEmpty | src/core/statements.py:259-260 | The accounts that have transactions |
| Statements.EmptyAccountsSkipped | src/core/statements.py:258-260 | Storing the accounts is the same as storing only those with transactions |
| Statements.Prepared | src/core/statements.py:262-270 | Definition, no contract of its own: each row with the account id in front, hashed, then the statement id in front. PreparedWidth states its shape |
| Statements.PreparedWidth | src/core/statements.py:263-270 | Each row prepared for storage has three values more: the statement id, the account id and the digest |
| Statements.StoreOne | src/core/statements.py:258-278 | Definition, no contract of its own: an account without rows is skipped; otherwise its prepared rows go to Shopping for the Amazon accounts and to Transactions for the others, skipping duplicates. StoreOneFailsOnlyOnWidth and StoreOneRoutesAndKeeps state its properties |
| Statements.StoreAccounts | src/core/statements.py:258-278 | Definition, no contract of its own: StoreOne over the accounts in order, stopping at the first failure with what was stored before it. EmptyAccountsSkipped, StoreFailsOnlyOnWidth and StoreRoutesAndKeeps state its properties |
| Statements.StoreOneFailsOnlyOnWidth | src/core/statements.py:263-278 | Storing one account can fail only on the column-count assertion, and rows of the right width are stored |
| Statements.StoreFailsOnlyOnWidth | src/core/statements.py:258-278 | Storing a statement's accounts can fail only on the column-count assertion, and accounts whose rows have the right width are all stored |
| Statements.StoreOneRoutesAndKeeps | src/core/statements.py:272-278 | An Amazon account writes only to Shopping and any other account only to Transactions; no stored row is removed and each table's MD5 values stay distinct |
| Statements.StoreRoutesAndKeeps | src/core/statements.py:258-278 | The same over all the statement's accounts |
| Statements.ImportSingleSpec | src/core/statements.py:231-281 | Definition, no contract of its own: the duplicate check, the parse, the account lookup, the statement row, the stored transactions and the archive move, with nothing rolled back. DuplicateMovedAside, EarlyFailureChangesNothing, MetadataKept, RetryIsDuplicate and MovedGrows state its properties, and Importer.ImportSingle is proved against it |
| Statements.DuplicateMovedAside | src/core/statements.py:238-243 | A file whose MD5 is already imported is moved to the duplicate directory and nothing else changes |
| Statements.EarlyFailureChangesNothing | src/core/statements.py:238-249 | When the MD5 lookup, the parse or the account lookup fails, the import raises and the store is unchanged |
| Statements.MetadataKept | src/core/statements.py:249-281 | Once the accounts are known, exactly one statement row with the file's MD5 and archive name is added; the file is archived under that name unless storing raises AssertionError, which rows of the right width never do |
| Statements.RetryIsDuplicate | src/core/statements.py:238-256 | A second import of a file that got as far as its statement row only moves it to the duplicates, even when the first import failed afterwards |
| Statements.MovedGrows | src/core/statements.py:231-281 | An import never forgets a moved file, and a successful one moves its file |
| Statements.Settled | src/core/statements.py:302-312 | A failed import's file is moved to the failure directory; the tables stay as the import left them |
| Statements.StoppedRunIsFinal | src/core/statements.py:306-307 | Once the loop has stopped, the later files change nothing |
| Statements.RunStops | src/core/statements.py:300-312 | The loop stops only with hard_fail set, at the first file whose import raises |
| Statements.RunMoves | src/core/statements.py:300-312 | No moved file is forgotten, and without a stop every file is moved somewhere |
| Statements.ImportAllSpec | src/core/statements.py:284-312 | Definition, no contract of its own: the files imported in order, a failed file moved to the fail directory, or the run stopped at it under hard_fail. ImportAllStops and ImportAllMoves state its properties, and Importer.ImportAll is proved against it |
| Statements.ImportAllStops | src/core/statements.py:284-312 | `import_all` stops only with hard_fail set, right after the first import that raises |
| Statements.ImportAllMoves | src/core/statements.py:284-312 | `import_all` without a stop moves every file: archived, a duplicate, or failed |
| Statements.Importer.constructor | src/core/statements.py:235 | The importer starts on the given tables, with no file moved |
| Statements.ParseCalledWithTwoArguments | src/core/statements.py:238-246 | With `parse` called on two arguments, every file not yet imported raises TypeError and changes nothing, whereas the one-argument call imports a file that parses and whose accounts are known; duplicates are handled alike |
| Statements.Importer.ImportSingle | src/core/statements.py:231-281 | The method changes the tables and the moved files exactly as the import of one file is specified |
| Statements.Importer.StoreAccount | src/core/statements.py:258-278 | One account's rows are prefixed, hashed and stored as specified; the statements and the moved files are unchanged |
| Statements.Importer.ImportNext | src/core/statements.py:301-312 | One iteration of the loop: the import, then a stop when it raised under hard_fail, else the failed file moved aside |
| Statements.Importer.ImportAll | src/core/statements.py:284-312 | The loop over the files gives the run specified by the fold over the imports |
| Db.InsertRows | src/core/db.py:82-90 | Definition, no contract of its own: one INSERT per record in order; a record that conflicts on the unique column is counted and skipped under skip_duplicates and otherwise raises IntegrityError, ending the loop with what was stored before; any other record is appended. The lemmas below state its properties |
| Db.InsertPreservesUnique | src/core/db.py:82-90 | Inserting never removes or changes a stored row, and the unique-key constraint keeps holding |
| Db.SkipNeverRaises | src/core/db.py:86-88 | With skip_duplicates nothing raises, and the rows stored grow by the batch size less the duplicates counted |
| Db.KeyStaysPresent | src/core/db.py:82-90 | A row stored before the insert is still stored at the same place after it |
| Db.BatchKeysStored | src/core/db.py:83-88 | After an insert with skip_duplicates every keyed row of the batch is present: inserted or already there |
| Db.AllConflictingSkipped | src/core/db.py:86-88 | A batch made only of duplicates changes nothing and counts every row as a duplicate |
| Db.InsertTwiceIsIdempotent | src/core/db.py:62-96 | Inserting the same batch again with skip_duplicates changes nothing |
| Db.FirstConflictRaises | src/core/db.py:86-90 | A duplicate first row raises IntegrityError without skip_duplicates, leaving the table unchanged, and is skipped with it |
| Db.InsertQuery | src/core/db.py:75-78 | Definition, no contract of its own: "INSERT INTO", the table, the comma-joined columns and one "?" per column. InsertQueryPlaceholders states its placeholder count |
| Db.InsertQueryPlaceholders | src/core/db.py:76-78 | The INSERT query has exactly one "?" per column, for table and column names free of "?" |
| Db.ConstructUpdateQuery | src/core/db.py:99-115 | Definition, no contract of its own: "UPDATE", the table, "col = ?" for each update column joined by ", ", and for each where column joined by " AND ". UpdateQueryPlaceholders states its placeholder count |
| Db.UpdateQueryPlaceholders | src/core/db.py:99-115 | The UPDATE query has one "?" per update column and one per WHERE column |
| Db.UpdateDbWhere | src/core/db.py:118-165 | ValueError exactly when the two lists differ in length or a tuple does not fit its columns; otherwise one execution per pair, of the update query with the update values then the WHERE values |
| Db.QueryColumns | src/core/db.py:42-45 | The column names are the description's names, in order, or none without a description |
| Db.Table.constructor | src/core/db.py:62-68 | An empty table with its unique column |
| Db.Table.InsertIntoDb | src/core/db.py:62-96 | The rows stored and the result are those of the insert: AssertionError for a row of the wrong width, otherwise each row stored, counted as a duplicate or raising IntegrityError |
| Validation.NewTransactionAsWritten | src/core/validation.py:15-21 | Building a Transaction succeeds exactly when the posting date, the amount, the balance and the description are all passed; otherwise TypeError |
| Validation.OmittedBalanceRaises | src/core/validation.py:19 | A Transaction built without a balance, as several parsers build their interest and fee rows, raises TypeError |
| Validation.NewTransaction | src/core/validation.py:15-21 | With the balance defaulting to None like the transaction date: succeeds exactly when the posting date, the amount and the description are passed, and keeps every value passed |
| Validation.NewTransactionAgrees | src/core/validation.py:15-21 | When a balance is passed, the corrected constructor and the one as written agree |
| Validation.Account.constructor | src/core/validation.py:24-32 | A new account holds the values given, with no account id, name or statement id |
| Validation.Account.AddAccountInfo | src/core/validation.py:34-40 | Succeeds exactly when the id is an int and the name a string, and then stores both; otherwise ValidationError and nothing changes; after success the account-info check finds nothing |
| Validation.Account.AddStatementId | src/core/validation.py:42-45 | Succeeds exactly when the id is an int and then stores it; otherwise ValidationError and nothing changes |
| Validation.Account.InitialIssues | src/core/validation.py:47-57 | One complaint per wrongly typed field: account number not a string, either balance not a float; none exactly when all three are typed |
| Validation.Account.AccountInfoIssues | src/core/validation.py:59-67 | One complaint for an account id that is not an int and one for a name that is not a string |
| Validation.Account.ValidateInitial | src/core/validation.py:47-57 | Raises ValidationError exactly when a field is wrongly typed |
| Validation.Account.ValidateAccountInfo | src/core/validation.py:59-67 | Raises ValidationError exactly when the id or the name is missing or wrongly typed |
| Validation.Account.ValidateComplete | src/core/validation.py:69-74 | Passes exactly when every field, the statement id included, has its type; otherwise ValidationError |
| Validation.CompleteAccount | src/core/validation.py:34-74 | An account given an int id, a string name and an int statement id is complete exactly when it passed the initial check |
| Validation.Views | src/core/validation.py:125-181 | One view per account, each that account's fields |
| Validation.Statement.constructor | src/core/validation.py:77-85 | A new statement holds the values given, with no destination path and no MD5 |
| Validation.Statement.AddMd5hash | src/core/validation.py:87-90 | Succeeds exactly when the hash is a string and then stores it; otherwise ValidationError; nothing else changes |
| Validation.Statement.AddDpath | src/core/validation.py:92-93 | Stores the path; nothing else changes |
| Validation.GatherOk | src/core/validation.py:104-107 | The checks' loop succeeds exactly when every check does; every complaint of every check is kept and nothing else; a failing loop raises the error of one of its checks |
| Validation.GatherStops | src/core/validation.py:106-107 | Once a check raises, the later checks do not change the outcome |
| Validation.ValidateMetadata | src/core/validation.py:116-122 | One complaint for a missing statement type and one for a missing path, and no other |
| Validation.TransactionIssues | src/core/validation.py:129-162 | A posting date that is not a date, a set transaction date that is not a date, or a description that is not a string raise (TypeError or AttributeError) before a complaint is returned; otherwise: outside the period exactly when the posting date is, far exactly when the transaction date is more than 30 days from the posting date, an amount or balance complaint exactly when it is not a float, an empty-description complaint exactly when it is blank |
| Validation.CleanTransaction | src/core/validation.py:129-162 | A transaction in the period, with typed fields, a near transaction date and a non-blank description draws no complaint |
| Validation.ValidateTransactions | src/core/validation.py:125-164 | The nested loop over accounts and transactions gives every transaction's complaints in order, or the first error raised |
| Validation.ValidateAccountTransactions | src/core/validation.py:128-162 | The inner loop gives the account's transactions' complaints in order |
| Validation.TransactionCheckCollects | src/core/validation.py:127-162 | Every complaint about any transaction of any account is among those returned |
| Validation.AccountBalanceIssues | src/core/validation.py:169-179 | Raises TypeError when a balance or an amount is not a number; otherwise one complaint exactly when the balance change and the amounts' sum differ by more than a cent, carrying the discrepancy |
| Validation.ValidateBalances | src/core/validation.py:167-181 | The loop over the accounts gives each account's balance complaint in order |
| Validation.BalanceCheckIffReconciled | src/core/validation.py:167-181 | No balance complaint exactly when every account's transactions add up to its balance change, within a cent |
| Validation.CheckErrors | src/core/validation.py:116-181 | The registered checks raise nothing but TypeError or AttributeError |
| Validation.ValidationErrorIffHardFail | src/core/validation.py:104-112 | ValidationError exactly when hard_fail is set and the checks complained; without hard_fail the checks' outcome passes through |
| Validation.RegistrationOrder | src/core/validation.py:100-107 | A check registered later adds its complaints after those of the earlier checks |
| Validation.DefaultChecksInOrder | src/core/validation.py:185-187 | With the module's three registrations the complaints come metadata first, then transactions, then balances |
| Validation.Invoke | src/core/validation.py:107 | Calling a registered check gives that check's outcome |
| Validation.Validator.constructor | src/core/validation.py:97-187 | The registry holds the three checks the module registers, in order |
| Validation.Validator.Register | src/core/validation.py:100-101 | Registering appends the check |
| Validation.Validator.ValidateStatement | src/core/validation.py:104-112 | The loop over the registered checks gives `validate_statement`'s outcome as specified above |
| ParsersWfbus.GetIndices | src/parsers/wfbus.py:97-107 | The left index is the column name's position plus the left buffer, clamped at 0; the right is the position past the name plus the right buffer (both from -1 when the name is missing) |
| ParsersWfbus.IndicesEncloseName | src/parsers/wfbus.py:103-106 | With buffers that widen, the indices enclose the column name where the header holds it; a missing name starts at 0 |
| ParsersWfbus.NumberOnlyWhenPresent | src/parsers/wfbus.py:115-126 | The Number column is measured exactly when the header holds "Number"; the other five always are, in order |
| ParsersWfbus.LayoutTiles | src/parsers/wfbus.py:136-154 | The columns tile the line: each ends where the next begins, and the last runs to -1 |
| ParsersWfbus.ColumnSlices | src/parsers/wfbus.py:110-156 | The two loops give the layout above: five or six left-justified columns that tile the line |
| ParsersWfbus.MeasureColumns | src/parsers/wfbus.py:129-154 | The loops over the column settings give the layout of those settings |
| ParsersWfbus.Cell | src/parsers/wfbus.py:173-199 | A column's slice is found exactly when the layout has a column of that name |
| ParsersWfbus.HeaderlessFirstPage | src/parsers/wfbus.py:76-92 | As written, a transaction line before the first header becomes a page of its own, without a header |
| ParsersWfbus.ShortDateLine | src/parsers/wfbus.py:70-78 | A line such as "  1/2  x" is a transaction line and not a header |
| ParsersWfbus.JoinedHeader | src/parsers/wfbus.py:72-78 | A line holding the five column names is a header |
| ParsersWfbus.ScanWellFormed | src/parsers/wfbus.py:76-88 | During the scan every page closed, and the one open, starts with its header; there is one page per header line |
| ParsersWfbus.PagesWellFormed | src/parsers/wfbus.py:63-94 | With the lines before the first header skipped, every page starts with its header and there is one page per header |
| ParsersWfbus.GetTransactionPages | src/parsers/wfbus.py:63-94 | The loop gives those pages, each starting with its header |
| ParsersWfbus.RemoveAuthorized | src/parsers/wfbus.py:180-185 | Removing the "authorized on mm/dd " phrases never lengthens the description, and leaves one without the phrase unchanged |
| ParsersWfbus.CellAmount | src/parsers/wfbus.py:188-193 | A blank cell reads as 0; any other cell is the amount of its stripped text |
| ParsersWfbus.ParseLine | src/parsers/wfbus.py:171-204 | A row read: its date is the date cell placed in the period, its amount the credits less the debits, its balance missing exactly when the balance cell is blank, its description the cleaned description cell |
| ParsersWfbus.ParseTransactionPage | src/parsers/wfbus.py:157-206 | The loop gives one row per line under the header, in order, or the first line's error |
| ParsersWfbus.BackwardsFillBalance | src/parsers/wfbus.py:209-230 | No rows raise IndexError and a last row without a balance ValueError; otherwise every row gets a balance: its own, or the next row's balance less the next row's amount, and nothing else changes |
| ParsersWfbus.ParseTransactions | src/parsers/wfbus.py:233-246 | Every page's rows in order, then the balances filled backwards, with the error of whichever step raises |
| ParsersWfbus.MdInYear | src/parsers/wfbus.py:48-50 | `m/d/YYYY` reads as that day, and only for a four-digit year |
| ParsersWfbus.GetStatementDates | src/parsers/wfbus.py:25-60 | The period read never ends before it starts |
| ParsersWfbus.RolloverEarlier | src/parsers/wfbus.py:52-56 | A start placed in the year before comes before the end |
| ParsersCiti.TransactionIndices | src/parsers/citi.py:64-67 | Every index found is that of a line of the statement |
| ParsersCiti.LookaheadShape | src/parsers/citi.py:84-107 | The lookahead joins at most five lines and never runs into the next record; it raises ValueError only when the next record starts more than five lines on |
| ParsersCiti.AssembleMeaning | src/parsers/citi.py:69-109 | The last record and a first line holding "$" are kept as they are; any other record is its first line joined with the lines up to the next record, at most five in all; the only error is ValueError, when the next record starts more than five lines on |
| ParsersCiti.GetTransactionLines | src/parsers/citi.py:58-111 | The loop gives one assembled record per dated line, in order, or the first record's error |
| ParsersCiti.AssembleRecord | src/parsers/citi.py:72-109 | The loop with the lookahead gives the record defined above |
| ParsersCiti.LastDollar | src/parsers/citi.py:136-138 | The position of the last word holding "$", which is a position of the line's words |
| ParsersCiti.ParseWords | src/parsers/citi.py:124-149 | A line without words raises IndexError; a row read has the first word's date placed in the period, the last "$" word's amount negated, and the words before it, after the dates, as the description |
| ParsersCiti.ParseTransactions | src/parsers/citi.py:114-152 | The loop gives the rows of the lines in order, each balance the one before plus its amount, from the balance passed in; or the first line's error |
| ParsepdfCiti.Positions | src/core/parsepdf/citi.py:185-186 | One position per word of the line |
| ParsepdfCiti.Kept | src/core/parsepdf/citi.py:184-191 | The words kept are a prefix of the line's words |
| ParsepdfCiti.KeptStopsAtFirstCut | src/core/parsepdf/citi.py:185-189 | Words are kept up to the first that starts past the amount column and is more than one space after the word before it, and that word is the first dropped |
| ParsepdfCiti.Truncated | src/core/parsepdf/citi.py:180-192 | Definition, no contract of its own: the words `Kept` keeps, joined by single spaces. TruncateWords is proved against it |
| ParsepdfCiti.TruncateWords | src/core/parsepdf/citi.py:180-192 | The loop gives the truncated line defined above |
| ParsepdfCiti.KeepWords | src/core/parsepdf/citi.py:185-191 | The loop over the words keeps the prefix defined above |
| ParsepdfCiti.HeaderHasAmount | src/core/parsepdf/citi.py:157-170 | On a header line the end of "amount" is at least 6, so the index is found |
| ParsepdfCiti.CleanLines | src/core/parsepdf/citi.py:154 | One cleaned line per raw line |
| ParsepdfCiti.TruncatedLines | src/core/parsepdf/citi.py:203-213 | One truncated line per raw line |
| ParsepdfCiti.GatherShape | src/core/parsepdf/citi.py:206-214 | The lookahead joins at most six truncated lines, none of the later ones starting a record, and stops at an amount, the end of the page or the next record |
| ParsepdfCiti.RecordShape | src/core/parsepdf/citi.py:202-214 | A record is its truncated first line joined with at most five more, none of which starts a record |
| ParsepdfCiti.PageRecords | src/core/parsepdf/citi.py:202-214 | One record per dated line |
| ParsepdfCiti.PageTransactions | src/core/parsepdf/citi.py:136-219 | Every line returned holds an amount, and a page without a header gives none |
| ParsepdfCiti.GetTransactionsFromPage | src/core/parsepdf/citi.py:136-219 | The page's loops give its transaction lines as defined above |
| ParsepdfCiti.CollectRecords | src/core/parsepdf/citi.py:199-217 | The records assembled at the record starts, in page order, keeping exactly those that hold an amount |
| ParsepdfCiti.AssembleRecord | src/core/parsepdf/citi.py:203-214 | The lookahead loop gives the record defined above |
| ParsepdfCiti.GetTransactionLines | src/core/parsepdf/citi.py:125-134 | Every page's transaction lines, in page order |
| ParsepdfCiti.ParseWords | src/core/parsepdf/citi.py:234-266 | A line without words raises IndexError; otherwise the first date is the transaction date, a second `mm/dd` is the posting date (else the posting date is the first), the first amount-like word is negated into the amount, and the words before it are the description; no balance is passed |
| ParsepdfCiti.Balance | src/core/parsepdf/citi.py:109-118 | A missing pattern raises ValueError; a balance read is the last word of the first line holding the pattern, negated |
| ParsepdfCiti.StatementBalances | src/core/parsepdf/citi.py:97-123 | Both balances are read exactly when each pattern's is, and they are the previous and the new balance |
| ParsepdfCiti.StatementDates | src/core/parsepdf/citi.py:51-59 | A period is read only from a line starting with "Billing Period:" |
| ParsepdfCiti.Parser.constructor | src/core/parsepdf/citi.py:36-49 | The parser holds the reader's cleaned lines and pages |
| ParsepdfCiti.Parser.GetStatementDates | src/core/parsepdf/citi.py:51-59 | Sets both dates as read, or raises and leaves them; nothing else changes |
| ParsepdfCiti.Parser.GetStatementBalances | src/core/parsepdf/citi.py:97-123 | Sets both balances as read, or raises and leaves them; nothing else changes |
| ParsepdfCiti.Parser.ParseTransactionLines | src/core/parsepdf/citi.py:221-269 | One transaction per line, in order, or the first line's error; none carries a balance |
| ParsepdfWfbank.Head | src/core/parsepdf/wfbank.py:234 | `text_simple[:200]`: a prefix of the text, at most 200 characters long |
| ParsepdfWfbank.Chosen | src/core/parsepdf/wfbank.py:233-235 | The loop over the account types leaves no header, the personal one or the business one |
| ParsepdfWfbank.HeaderCols | src/core/parsepdf/wfbank.py:227-239 | ValueError exactly when neither account type's names appear in the first 200 characters; the business header when a business name appears (it is tried last and wins), the personal header otherwise |
| ParsepdfWfbank.ChosenOfTwo | src/core/parsepdf/wfbank.py:233-235 | After both account types the business header is chosen when its names appear, else the personal one when its names do, else none |
| ParsepdfWfbank.DetermineHeader | src/core/parsepdf/wfbank.py:227-239 | The loop gives the header chosen above |
| ParsepdfWfbank.Texts | src/core/parsepdf/wfbank.py:269 | Each word's text, in order |
| ParsepdfWfbank.Bottoms | src/core/parsepdf/wfbank.py:280 | Each word's bottom coordinate, in order |
| ParsepdfWfbank.MaxCount | src/core/parsepdf/wfbank.py:280 | The highest number of times any of the first n values occurs, reached by one of them |
| ParsepdfWfbank.Mode | src/core/parsepdf/wfbank.py:280 | `statistics.mode`: a value of the list occurring at least as often as any other, the first such in list order |
| ParsepdfWfbank.ModeExists | src/core/parsepdf/wfbank.py:280 | A list that is not empty has a mode |
| ParsepdfWfbank.HeaderMap | src/core/parsepdf/wfbank.py:293-301 | Every header word is addressable by its text, and each entry is the last word with that text |
| ParsepdfWfbank.Lookup | src/core/parsepdf/wfbank.py:304-331 | A header entry is found exactly when its column is in the map; otherwise KeyError |
| ParsepdfWfbank.CropBox | src/core/parsepdf/wfbank.py:303-311 | The crop box is defined exactly when the first and last columns are in the header |
| ParsepdfWfbank.VerticalLines | src/core/parsepdf/wfbank.py:313-334 | Seven separators, defined exactly when all five columns are in the header |
| ParsepdfWfbank.CutMeaning | src/core/parsepdf/wfbank.py:342-351 | The rows kept are those before the first blank or "Ending" row, all six cells wide; ValueError exactly when an earlier row has another width |
| ParsepdfWfbank.CutArray | src/core/parsepdf/wfbank.py:342-351 | The validation loop gives the cut defined above |
| ParsepdfWfbank.AlignedHeader | src/core/parsepdf/wfbank.py:280-283 | The words kept near the mode's line are header words of the page |
| ParsepdfWfbank.TableOf | src/core/parsepdf/wfbank.py:293-353 | A table read from a page has six cells in every row |
| ParsepdfWfbank.PageArray | src/core/parsepdf/wfbank.py:252-353 | A page missing a header word gives no rows; more or fewer than five header words on the header's line raise ValueError; the rows read are six cells wide |
| ParsepdfWfbank.BuildHeader | src/core/parsepdf/wfbank.py:293-301 | The loop over the header words gives the map defined above |
| ParsepdfWfbank.GetTransactionsFromPage | src/core/parsepdf/wfbank.py:252-353 | The page's steps give the rows defined above |
| ParsepdfWfbank.Reraise | src/core/parsepdf/wfbank.py:243-248 | A page's failure becomes ValueError and its rows pass through |
| ParsepdfWfbank.GetTransactionArray | src/core/parsepdf/wfbank.py:197-250 | The header chosen, then every page's rows in page order, a page's failure raised as ValueError |
| ParsepdfWfbank.RunEnd | src/core/parsepdf/wfbank.py:369-375 | The lookahead runs over the rows without a date that carry a description, and stops at the first other row |
| ParsepdfWfbank.Descriptions | src/core/parsepdf/wfbank.py:367-374 | One description cell per row |
| ParsepdfWfbank.CellAmount | src/core/parsepdf/wfbank.py:390-391 | An empty cell reads as 0, any other as its amount |
| ParsepdfWfbank.CellBalance | src/core/parsepdf/wfbank.py:393 | An empty cell passes None as the balance; any other passes its amount, and fails when it has none |
| ParsepdfWfbank.RowTransaction | src/core/parsepdf/wfbank.py:389-408 | A dated row's transaction: the date placed in the period as both dates, the additions less the subtractions, the balance cell, and the description joined over its continuation rows |
| ParsepdfWfbank.ContinuationsUndated | src/core/parsepdf/wfbank.py:369-375 | Skipping continuation rows skips no dated row |
| ParsepdfWfbank.OnePerDatedRow | src/core/parsepdf/wfbank.py:378-411 | One transaction per dated row, each with the same transaction and posting date |
| ParsepdfWfbank.FullDescription | src/core/parsepdf/wfbank.py:365-376 | The lookahead loop gives the number of continuation rows and the description joined over them |
| ParsepdfWfbank.ParseTransactionArray | src/core/parsepdf/wfbank.py:355-413 | The while loop over the rows gives the transactions of the dated rows as defined above, or the first row's error |
| ParsepdfWfbank.BalanceFor | src/core/parsepdf/wfbank.py:180-186 | A balance is found only on a line starting with its pattern |
| ParsepdfWfbank.StatementBalances | src/core/parsepdf/wfbank.py:166-195 | Exactly two patterns must give a balance, else ValueError; the two found are returned in pattern order |
| ParsepdfWfbank.GetStatementBalances | src/core/parsepdf/wfbank.py:166-195 | The loop over the patterns gives the balances defined above |
| ParsepdfWfbank.KeepOrdered | src/core/parsepdf/wfbank.py:178-187 | The patterns found are distinct, so the dict holds one balance per pattern found |
| PdfWfbankpersonal.FragmentFrom | src/plugins/pdf_wfbankpersonal.py:251-257 | The longest fragment of at least three characters that ends the column name and is a word of the page, if any |
| PdfWfbankpersonal.CorrectedMeaning | src/plugins/pdf_wfbankpersonal.py:245-262 | A column found on the page is kept; otherwise the longest fragment found replaces it, or the name is kept when there is none |
| PdfWfbankpersonal.CorrectedHeader | src/plugins/pdf_wfbankpersonal.py:244-262 | One corrected name per header column, in order |
| PdfWfbankpersonal.CorrectHeader | src/plugins/pdf_wfbankpersonal.py:244-262 | The correction loop gives the corrected header defined above |
| PdfWfbankpersonal.CorrectOne | src/plugins/pdf_wfbankpersonal.py:246-262 | The correction of one column |
| PdfWfbankpersonal.WordSetTexts | src/plugins/pdf_wfbankpersonal.py:242-243 | The word set holds exactly the page's word texts |
| PdfWfbankpersonal.PageArray | src/plugins/pdf_wfbankpersonal.py:229-302 | A page missing a corrected header word, or without five header words on the header's line, gives no rows; rows read are six cells wide |
| PdfWfbankpersonal.GetTransactionsFromPage | src/plugins/pdf_wfbankpersonal.py:229-302 | The page's steps give the rows defined above |
| PdfWfbankpersonal.GetTransactionArray | src/plugins/pdf_wfbankpersonal.py:210-227 | Every page's rows in order, a page's failure raised as ValueError; the rows are six cells wide |
| ParsepdfWfploan.StatementDates | src/core/parsepdf/wfploan.py:55-73 | Read exactly when "Statement Date mm/dd/yy" is found and its date parses; the period ends on that date and starts 31 days earlier; any failure is ValueError |
| ParsepdfWfploan.AccountNumber | src/core/parsepdf/wfploan.py:132-141 | A missing "Account Number " raises ValueError; otherwise the first word after its last occurrence on the first line holding it |
| ParsepdfWfploan.BalanceWord | src/core/parsepdf/wfploan.py:156-157 | IndexError exactly when nothing follows the pattern; otherwise the first word after it with its "*" removed |
| ParsepdfWfploan.PatternBalance | src/core/parsepdf/wfploan.py:155-158 | A missing pattern raises ValueError; a balance read is the word after the pattern, negated |
| ParsepdfWfploan.StatementBalances | src/core/parsepdf/wfploan.py:143-172 | Both balances are read exactly when each pattern's is, the prior one first; a ValueError comes only from a pattern that raised it |
| ParsepdfWfploan.Stop | src/core/parsepdf/wfploan.py:182-184 | The first line holding "Ending Principal Balance", or the end |
| ParsepdfWfploan.TransactionLinesMeaning | src/core/parsepdf/wfploan.py:174-188 | Every line kept starts with `mm/dd/yy ` and comes before the ending balance, and every such dated line before it is kept |
| ParsepdfWfploan.GetTransactionLines | src/core/parsepdf/wfploan.py:174-188 | The loop with its break gives the lines defined above |
| ParsepdfWfploan.FeeIsNoPayment | src/core/parsepdf/wfploan.py:225-254 | Neither "INTEREST FEE" nor "LOAN ORIGINATION" holds "INTEREST PAYMENT" |
| ParsepdfWfploan.ParseWords | src/core/parsepdf/wfploan.py:204-244 | Fewer than three words raise ValueError, as does every failure; a line is read exactly when its date and its amount parse; its transaction has the date, the last word's amount and the words between as a non-empty description; an interest payment is preceded by the matching interest fee |
| ParsepdfWfploan.MiddleNonEmpty | src/core/parsepdf/wfploan.py:221-223 | Three words or more always leave a description |
| ParsepdfWfploan.WithOrigination | src/core/parsepdf/wfploan.py:246-255 | An empty result becomes the single loan origination on the end date; anything else passes through |
| ParsepdfWfploan.OriginationAlone | src/core/parsepdf/wfploan.py:246-255 | The origination alone keeps every interest payment after its fee |
| ParsepdfWfploan.LineBlock | src/core/parsepdf/wfploan.py:225-244 | A line gives an interest payment after its fee, or one other transaction |
| ParsepdfWfploan.AppendBlock | src/core/parsepdf/wfploan.py:204-244 | Appending a line's transactions keeps every interest payment after its fee |
| ParsepdfWfploan.AtLeastOnePerLine | src/core/parsepdf/wfploan.py:204-244 | At least one transaction per line |
| ParsepdfWfploan.ParsedLines | src/core/parsepdf/wfploan.py:204-244 | In the parsed transactions every interest payment comes right after its matching fee |
| ParsepdfWfploan.OriginationIffNoLines | src/core/parsepdf/wfploan.py:246-255 | The origination is added exactly when there are no transaction lines |
| ParsepdfWfploan.Parser.constructor | src/core/parsepdf/wfploan.py:28-53 | The parser holds the reader's lines and text |
| ParsepdfWfploan.Parser.GetStatementDates | src/core/parsepdf/wfploan.py:55-73 | Sets the period as read, or raises ValueError and leaves it; nothing else changes |
| ParsepdfWfploan.Parser.GetStatementBalances | src/core/parsepdf/wfploan.py:143-172 | Sets both balances as read, or raises and leaves them; nothing else changes |
| ParsepdfWfploan.Parser.ParseTransactionLines | src/core/parsepdf/wfploan.py:190-257 | Every line's transactions in order, or the origination alone; every interest payment comes right after its fee |
| ParseWfploan.StatementDates | src/parse/wfploan.py:24-41 | A missing "Statement Date " raises ValueError; the period ends on the date after it and starts 30 days earlier |
| ParseWfploan.StartingBalance | src/parse/wfploan.py:44-54 | A missing line raises ValueError; the balance is the word after "Prior Principal Balance ", negated |
| ParseWfploan.TransactionLines | src/parse/wfploan.py:57-80 | None exactly when a line says the cycle had no transactions; otherwise every dated line with "$" that is not the ending balance, and no other |
| ParseWfploan.GetTransactionLines | src/parse/wfploan.py:57-80 | The loop with its early return gives the lines defined above |
| ParseWfploan.PaymentPart | src/parse/wfploan.py:106-118 | A missing line raises ValueError; the amount is the last word of the first line holding the pattern |
| ParseWfploan.PaymentDate | src/parse/wfploan.py:106-111 | A missing interest line raises ValueError; the date is its first word |
| ParseWfploan.ParseTransactions | src/parse/wfploan.py:83-133 | No rows when the cycle had none; more than two lines raise ValueError; otherwise exactly two rows, the interest charged as a fee and then the interest plus principal paid, both on the interest line's date, with a running balance that ends at the start plus the principal |
| ParsecsvMohela.FixHeader | src/core/parsecsv/mohela.py:26-28 | An empty table or first row raises IndexError; otherwise only the first header cell changes, to the text after its last ">" |
| ParsecsvMohela.FixedCellClean | src/core/parsecsv/mohela.py:28 | The corrected header cell holds no ">" |
| ParsecsvMohela.EntryMeaning | src/core/parsecsv/mohela.py:88-97 | An entry has a date exactly when the header names a Date column; its fields are exactly the header's other non-empty names, each holding the row's cell of such a column; it fails exactly when some column's cell is missing or its date does not parse |
| ParsecsvMohela.EntryStopped | src/core/parsecsv/mohela.py:90-96 | Once a column has raised, the later columns do not change the outcome |
| ParsecsvMohela.BuildEntry | src/core/parsecsv/mohela.py:89-97 | The loop over the header gives the entry defined above |
| ParsecsvMohela.Insert | src/core/parsecsv/mohela.py:101 | Inserting into entries sorted by date keeps them sorted and adds exactly the new one |
| ParsecsvMohela.SortByDate | src/core/parsecsv/mohela.py:101 | `sorted(data, key=Date)`: sorted by date and a permutation of the entries |
| ParsecsvMohela.InsertStable | src/core/parsecsv/mohela.py:101 | Inserting an entry puts it after every entry of its own date, and leaves the order among the others of each date unchanged |
| ParsecsvMohela.SortStable | src/core/parsecsv/mohela.py:101 | The sort is stable: for every date, the entries of that date come out in the order they had in the rows |
| ParsecsvMohela.Field | src/core/parsecsv/mohela.py:104-113 | A field is read exactly when the entry has it; otherwise KeyError |
| ParsecsvMohela.EntryPostings | src/core/parsecsv/mohela.py:104-128 | An entry melts into its negated Total under its description, then its Interest as "INTEREST" exactly when that is not zero, both on its date |
| ParsecsvMohela.MeltedInDateOrder | src/core/parsecsv/mohela.py:101-128 | Entries in date order melt into transactions in date order, the last on the last entry's date |
| ParsecsvMohela.AsEntries | src/core/parsecsv/mohela.py:108-127 | One ledger row per transaction |
| ParsecsvMohela.AsTxns | src/core/parsecsv/mohela.py:108-127 | One transaction per ledger row |
| ParsecsvMohela.TxnsRoundTrip | src/core/parsecsv/mohela.py:108-127 | Turning ledger rows into transactions and back loses nothing |
| ParsecsvMohela.PostOne | src/core/parsecsv/mohela.py:107-127 | One posting adds its amount to the running balance and records the row with it |
| ParsecsvMohela.Melt | src/core/parsecsv/mohela.py:99-128 | The melting loop gives every entry's postings in order, each with the running balance from zero, or the first entry's error |
| ParsecsvMohela.ParsedTxns | src/core/parsecsv/mohela.py:80-130 | The rows read into entries (the first bad row raises), sorted by date (KeyError with rows but no Date column), then melted into transactions whose balance runs from zero and whose two dates agree |
| ParsecsvMohela.Parser.ParseTransactions | src/core/parsecsv/mohela.py:80-130 | The loops return exactly `ParsedTxns` of the rows |
| ParsecsvMohela.AccountOf | src/core/parsecsv/mohela.py:52-78 | A failed parse is re-raised as ValueError; no transactions raise IndexError; otherwise the account holds exactly the parsed transactions, under the fixed account name, from zero to the last transaction's balance, which runs from zero |
| ParsecsvMohela.Parser.ExtractAccount | src/core/parsecsv/mohela.py:52-78 | Returns exactly `AccountOf` the rows |
| ParsecsvMohela.StatementOf | src/core/parsecsv/mohela.py:36-78 | The account's error, or a statement of that one account whose transactions are the parsed ones and whose period runs from the first transaction's date to the last's; the only errors are ValueError and IndexError |
| ParsecsvMohela.Parser.ExtractStatement | src/core/parsecsv/mohela.py:36-50 | Returns exactly `StatementOf` the rows |
| ParsecsvMohela.ParsedStatement | src/core/parsecsv/mohela.py:14-34 | IndexError when the header cannot be fixed; otherwise the statement of the fixed table, whose transactions are those parsed from it |
| ParsecsvMohela.Parser.Parse | src/core/parsecsv/mohela.py:14-34 | Returns exactly `ParsedStatement` of the table; the header fix is stored, or IndexError leaves the table as it was |
| ParsecsvMohela.StatementOrdered | src/core/parsecsv/mohela.py:46-128 | The period's start is not after its end, and the end balance is the sum of all amounts |
| ParsecsvMohela.ParsedStatementOrdered | src/core/parsecsv/mohela.py:46-128 | For every parsed statement the period's start is not after its end, and the account's end balance is the sum of all its amounts |
| ParsepdfCapitaloneauto.StatementDatesMeaning | src/core/parsepdf/capitaloneauto.py:55-72 | The period's dates are the third and fifth words of the text matched by the dates pattern; no match, too few words or a bad date raises ValueError |
| ParsepdfCapitaloneauto.AccountNumber | src/core/parsepdf/capitaloneauto.py:122-131 | The account number is the word after the pattern on the first line holding it; no such line raises ValueError |
| ParsepdfCapitaloneauto.EndBalance | src/core/parsepdf/capitaloneauto.py:133-147 | The end balance is the word after the balance label, negated; no such line raises ValueError |
| ParsepdfCapitaloneauto.ColumnNames | src/core/parsepdf/capitaloneauto.py:156-164 | The column header is the first line that holds all four column words, and its words are the column names; ValueError exactly when no line does |
| ParsepdfCapitaloneauto.HeaderHasWords | src/core/parsepdf/capitaloneauto.py:159-163 | A header line always has at least one word |
| ParsepdfCapitaloneauto.TableEnd | src/core/parsepdf/capitaloneauto.py:170-176 | The table runs from the line after the header up to, not including, the first line that does not start with a date |
| ParsepdfCapitaloneauto.GetTableRows | src/core/parsepdf/capitaloneauto.py:169-176 | The loop collects exactly the table's rows |
| ParsepdfCapitaloneauto.Put | src/core/parsepdf/capitaloneauto.py:199 | Setting a key in the amounts dictionary overwrites it in place, or appends it when new |
| ParsepdfCapitaloneauto.PutLookup | src/core/parsepdf/capitaloneauto.py:199 | After the update the keys are still distinct, the key holds the new value, and the other keys keep theirs |
| ParsepdfCapitaloneauto.AmountsFrom | src/core/parsepdf/capitaloneauto.py:195-199 | Reading the columns from the right stops at the first "Principal", or at the first column when there is none |
| ParsepdfCapitaloneauto.Reverse | src/core/parsepdf/capitaloneauto.py:195 | `reversed(columns)`: the same columns in the opposite order |
| ParsepdfCapitaloneauto.DropEquals | src/core/parsepdf/capitaloneauto.py:186-188 | An "=" as the next-to-last word is removed and nothing else changes |
| ParsepdfCapitaloneauto.ParseRow | src/core/parsepdf/capitaloneauto.py:180-202 | A row with fewer words than columns raises ValueError |
| ParsepdfCapitaloneauto.MeltMeaning | src/core/parsepdf/capitaloneauto.py:204-226 | Melting succeeds exactly when every column read is Total or Interest; each becomes one transaction with that amount on the row's date, Interest described as "Interest Fee" |
| ParsepdfCapitaloneauto.AmountsFromRead | src/core/parsepdf/capitaloneauto.py:194-199 | Every amount the column loop stores was read from the row: the word that a column after "Principal" reads from the end, kept for Interest and negated for any other column |
| ParsepdfCapitaloneauto.MeltedFromColumns | src/core/parsepdf/capitaloneauto.py:199-226 | Melting amounts read from the row gives transactions each of which carries a Total amount negated or an Interest amount as printed, the latter as "Interest Fee" |
| ParsepdfCapitaloneauto.ParseRowSigned | src/core/parsepdf/capitaloneauto.py:180-226 | Every transaction of a parsed row comes from its Total or Interest column: the amount printed there, negated for Total and kept for Interest, which is described as "Interest Fee" |
| ParsepdfCapitaloneauto.TotalAppend | src/core/parsepdf/capitaloneauto.py:204-206 | Subtracting the amounts in two stretches subtracts their sum |
| ParsepdfCapitaloneauto.Parser.constructor | src/core/parsepdf/capitaloneauto.py:18-30 | A new parser holds no lines and no text |
| ParsepdfCapitaloneauto.Parser.GetStatementDates | src/core/parsepdf/capitaloneauto.py:55-72 | The period read from the text is set; any failure raises ValueError and leaves the end date as it was, while the start date is whatever `StoredStart` says (stored as soon as it reads, before the end date is read); nothing else changes |
| ParsepdfCapitaloneauto.StoredStart | src/core/parsepdf/capitaloneauto.py:67-68 | Definition, no contract of its own: the start date left stored, the one before the call unless the first date reads; stated by StoredStartOfPeriod and StoredStartMeaning |
| ParsepdfCapitaloneauto.StoredStartOfPeriod | src/core/parsepdf/capitaloneauto.py:68-69 | A period read leaves its own start date stored |
| ParsepdfCapitaloneauto.StoredStartMeaning | src/core/parsepdf/capitaloneauto.py:67-72 | No match stores nothing; a start that reads followed by an end that does not raises ValueError with the new start stored |
| ParsepdfCapitaloneauto.Parser.GetStatementBalances | src/core/parsepdf/capitaloneauto.py:133-147 | The end balance is set, or the lookup's error leaves it as it was; nothing else changes |
| ParsepdfCapitaloneauto.Parser.ParseTransactionLines | src/core/parsepdf/capitaloneauto.py:149-228 | The transactions are the melted table rows, and the start balance becomes the end balance less their sum |
| ParsepdfCapitaloneauto.Parser.MeltRows | src/core/parsepdf/capitaloneauto.py:179-228 | The transactions of every row, in row order, or the first failing row's error; on success the start balance has dropped by their total |
| ParsepdfCapitaloneauto.Parser.ExtractAccount | src/core/parsepdf/capitaloneauto.py:83-120 | The account is read exactly when its number, end balance and transactions are; the start balance is what the transactions leave; every failure is ValueError |
| ParsepdfCapitaloneauto.Parser.ExtractStatement | src/core/parsepdf/capitaloneauto.py:38-53 | A statement with the period and the one account exactly when both can be read; otherwise ValueError |
| ParsepdfCapitaloneauto.Parser.Parse | src/core/parsepdf/capitaloneauto.py:18-36 | No lines raise ValueError; otherwise the statement as above |
| ParsepdfOccubank.DatesFromText | src/core/parsepdf/occubank.py:66-81 | The period is the second word of the first "FROM mm/dd/yy" line and of the first "TO mm/dd/yy" line; a missing line raises ValueError |
| ParsepdfOccubank.FromAnnotations | src/core/parsepdf/occubank.py:91-109 | The value of the first annotation whose title starts with the pattern; KeyError exactly when no title does |
| ParsepdfOccubank.DatesFromAnnotations | src/core/parsepdf/occubank.py:83-89 | The period from the first page's FROM_DATE and TO_DATE annotations; no pages raise IndexError |
| ParsepdfOccubank.StatementDatesAsWritten | src/core/parsepdf/occubank.py:57-64 | The text's dates, else the annotations' dates; when both fail, joining the two exceptions as strings raises TypeError |
| ParsepdfOccubank.StatementDates | src/core/parsepdf/occubank.py:50-64 | The text's dates, else the annotations' dates; ValueError exactly when both fail |
| ParsepdfOccubank.DatesFallbackDiffers | src/core/parsepdf/occubank.py:57-64 | The two agree whenever either source of dates succeeds; with neither, the code as written raises TypeError where ValueError is meant |
| ParsepdfOccubank.SectionEndMeaning | src/core/parsepdf/occubank.py:122-131 | The checking section ends at the least of the other-account line, the loan line and the line count, skipping any that is missing or zero |
| ParsepdfOccubank.SectionsOf | src/core/parsepdf/occubank.py:117-131 | The savings line, the checking line after it and the section end; a missing savings or checking line raises ValueError |
| ParsepdfOccubank.SectionsOrdered | src/core/parsepdf/occubank.py:118-135 | The savings line comes before the checking line, both inside the statement, and the end is past the first line |
| ParsepdfOccubank.Balance | src/core/parsepdf/occubank.py:184-193 | A balance is the last word of the first line holding its label; a missing line raises ValueError |
| ParsepdfOccubank.Balances | src/core/parsepdf/occubank.py:167-198 | The previous and ending balances, read exactly when both are |
| ParsepdfOccubank.Classify | src/core/parsepdf/occubank.py:207-216 | A line is kept when it starts with `mm/dd ` and its last two words hold "$"; a dated line with fewer than two words raises IndexError |
| ParsepdfOccubank.TransactionLinesMeaning | src/core/parsepdf/occubank.py:200-218 | IndexError exactly when some dated line is that short; otherwise exactly the kept lines, in order |
| ParsepdfOccubank.GetTransactionLines | src/core/parsepdf/occubank.py:200-218 | The loop gives the transaction lines defined above |
| ParsepdfOccubank.FilterStep | src/core/parsepdf/occubank.py:207-216 | One more line either extends the kept lines or raises that line's error |
| ParsepdfOccubank.FilterStopped | src/core/parsepdf/occubank.py:207-216 | Once a line has raised, later lines do not change the outcome |
| ParsepdfOccubank.Unpound | src/core/parsepdf/occubank.py:237-239 | A "#" as the second word is removed and nothing else changes |
| ParsepdfOccubank.ParseWords | src/core/parsepdf/occubank.py:225-253 | The first word is the date of both kinds, the next-to-last word the amount and the last word the balance, which is passed; a line with no words raises IndexError |
| ParsepdfOccubank.DescriptionMeaning | src/core/parsepdf/occubank.py:237-242 | The description is the words between the date, without a "#" after it, and the two amounts |
| ParsepdfOccubank.ParseTransactionLines | src/core/parsepdf/occubank.py:220-255 | One transaction per line, in order, or the first line's error |
| ParsepdfOccubank.AccountOfMeaning | src/core/parsepdf/occubank.py:151-165 | An account is read exactly when its balances, its transaction lines and each line's transaction are; it carries its number, both balances and one transaction per line |
| ParsepdfOccubank.DictAccounts | src/core/parsepdf/occubank.py:141-149 | Checking then savings, or, when both numbers are equal, one account with the savings lines under that number |
| ParsepdfOccubank.AccountsOf | src/core/parsepdf/occubank.py:111-149 | A statement without its savings or checking section raises ValueError |
| ParsepdfOccubank.Parser.constructor | src/core/parsepdf/occubank.py:23-34 | A new parser holds no lines and no pages |
| ParsepdfOccubank.Parser.GetStatementDates | src/core/parsepdf/occubank.py:50-64 | The period is set from the text or the annotations, or ValueError is raised; the lines and pages stay |
| ParsepdfOccubank.Parser.ExtractAccount | src/core/parsepdf/occubank.py:151-165 | The account read from one section |
| ParsepdfOccubank.Parser.ExtractAccounts | src/core/parsepdf/occubank.py:111-149 | The accounts read from the statement's sections |
| ParsepdfOccubank.Parser.Parse | src/core/parsepdf/occubank.py:23-48 | ValueError when the period cannot be read; otherwise the period with the accounts, or their error |
| PdfOccucc.StatementDates | src/plugins/pdf_occucc.py:72-96 | The period ends on the closing date and starts the cycle's day count less one day before it; every failure is ValueError |
| PdfOccucc.AccountNumber | src/plugins/pdf_occucc.py:163-172 | The first word after "AccountNumber " on the first line starting with it; no such line raises ValueError |
| PdfOccucc.Balance | src/plugins/pdf_occucc.py:184-189 | A balance is the first word after its label on the first line starting with it, negated |
| PdfOccucc.InterestFrom | src/plugins/pdf_occucc.py:287-300 | The interest charge is the line's third word, negated, on the closing date with no balance; a line under three words raises IndexError |
| PdfOccucc.Interest | src/plugins/pdf_occucc.py:277-300 | The charge read from the first line starting with "InterestCharged"; no such line raises ValueError |
| PdfOccucc.InterestDescribed | src/plugins/pdf_occucc.py:295-300 | The interest charge is described as "Interest Charged" |
| PdfOccucc.InterestLast | src/plugins/pdf_occucc.py:147-161 | The account's last transaction is the interest charge, on the closing date |
| PdfOccucc.Parser.constructor | src/plugins/pdf_occucc.py:32-45 | A new parser holds no lines |
| PdfOccucc.Parser.GetStatementDates | src/plugins/pdf_occucc.py:72-96 | The period is set, or ValueError leaves it as it was; the lines stay |
| PdfOccucc.Parser.ExtractAccount | src/plugins/pdf_occucc.py:107-161 | The account is read exactly when its number, balances, transactions and interest are: the transaction lines followed by the interest charge; every failure is ValueError |
| PdfOccucc.Parser.Parse | src/plugins/pdf_occucc.py:32-70 | No lines raise ValueError; otherwise the period and exactly one account, read as above |
| CardLines.GetTransactionLines | src/plugins/pdf_occucc.py:204-217 | The loop keeps exactly the lines that start with `mm/dd ` and a space, in order |
| CardLines.ParseWords | src/plugins/pdf_occucc.py:233-273 | Under three words raises ValueError; the first word is the posting date; a second `mm/dd` word is the transaction date, otherwise the posting date is; the last word is the amount, negated; the description is not empty |
| CardLines.DescriptionMeaning | src/plugins/pdf_occucc.py:260-263 | The description is the words between the dates and the amount; a line with two dates, an amount and nothing else raises ValueError |
| CardLines.ParseTransactionLines | src/plugins/pdf_occucc.py:219-275 | One transaction per line, in order, or the first line's error |
| CardLines.BothBalances | src/plugins/pdf_occucc.py:174-202 | Both balances or none: a lookup's IndexError escapes at once, and any other missing balance raises ValueError after both are tried |
| PdfUsbank.StatementMetadata | src/plugins/pdf/usbank.py:77-110 | Any failure to read the header raises ValueError |
| PdfUsbank.MetadataMeaning | src/plugins/pdf/usbank.py:89-107 | The header is read exactly when the first line holding "Open Date:" has a word after each date label and both read as dates; the period is those dates and the account number is the words after "Account:" glued together |
| PdfUsbank.StoredStartMeaning | src/plugins/pdf/usbank.py:105-110 | A failure after the open date has been read leaves that date stored; a missing info line stores nothing |
| PdfUsbank.AccountHasNoSpace | src/plugins/pdf/usbank.py:98-101 | The account number holds no whitespace |
| PdfUsbank.Balance | src/plugins/pdf/usbank.py:185-189 | A balance is the last word of the first line starting with its label, negated; no such line raises ValueError |
| PdfUsbank.Parser.constructor | src/plugins/pdf/usbank.py:23-36 | A new parser holds no lines and no account number |
| PdfUsbank.Parser.GetStatementMetadata | src/plugins/pdf/usbank.py:77-110 | The period and the account number are set from the header; on ValueError the end date and the account number stay and the start date is whatever was stored before the failure |
| PdfUsbank.Parser.ExtractAccount | src/plugins/pdf/usbank.py:121-164 | The account is read exactly when its balances and transactions are, under the header's account number; the transactions come from the simple lines; every failure is ValueError |
| PdfUsbank.Parser.Parse | src/plugins/pdf/usbank.py:23-75 | The layout lines are the cleaned page text; no lines raise ValueError; otherwise the header's period and exactly one account |
| PdfUsbank.CleanedLines | src/plugins/pdf/usbank.py:44-58 | Every layout line is non-blank and has its whitespace already collapsed to single spaces |
| ParseUsbank.AccountNumber | src/parse/usbank.py:13-24 | The words after the last "Account: " on the first line holding it, glued together; no such line raises ValueError |
| ParseUsbank.AccountNumberGlued | src/parse/usbank.py:22-23 | The account number is those words joined with nothing between them, so it holds no whitespace |
| ParseUsbank.FirstWordAfterFirst | src/parse/usbank.py:38-41 | `line.split(sep)[1].split()[0]`: read exactly when the separator occurs and a word follows its first occurrence; otherwise IndexError |
| ParseUsbank.StatementDates | src/parse/usbank.py:27-46 | The period is the first word after "Open Date: " and after "Closing Date: " on the first line starting with "Open Date: "; no such line raises ValueError |
| ParseUsbank.LastDollarAmount | src/parse/usbank.py:55-56 | The last word holding "$", negated; none raises IndexError |
| ParseUsbank.StartingBalance | src/parse/usbank.py:49-57 | The last dollar amount on the first line holding "Previous Balance "; no such line raises ValueError |
| ParseUsbank.GetTransactionLines | src/parse/usbank.py:60-76 | The loop keeps exactly the lines that start with `mm/dd ` and hold "$", in order |
| ParseUsbank.ParseWords | src/parse/usbank.py:87-110 | A line under two words raises IndexError; the row is dated by the second word when it is a date, else by the first; its amount is the last word, negated |
| ParseUsbank.DescriptionMeaning | src/parse/usbank.py:101-110 | The description is the words between the dates, less a four-digit reference number, and the amount; a line that is only dates raises IndexError |
| ParseUsbank.ParseTransactions | src/parse/usbank.py:79-116 | One row per line, in order, each carrying the running balance from the starting balance; or the first line's error |
| ParseUsbank.Parse | src/parse/usbank.py:119-129 | The steps run in order and the first that fails gives the error: the account number, then the period, then the starting balance, then the first transaction line that cannot be read; a result holds the account number, the period, and the transaction lines' rows posted from the starting balance; a result exists whenever every part can be read |
| ParsepdfTransamerica.AccountNumber | src/core/parsepdf/transamerica.py:11-20 | The first word of the first line holding " 401(k) Plan ", in any case; no such line raises ValueError and a line with no words IndexError |
| ParsepdfTransamerica.StatementDates | src/core/parsepdf/transamerica.py:23-40 | On the first line matching the summary pattern, the start is the last three words before " - " and the end the first three after it, each read as `%B %d, %Y`; no line raises ValueError, no " - " IndexError |
| ParsepdfTransamerica.DateTexts | src/core/parsepdf/transamerica.py:33-34 | The last three and the first three words of a text, or all of them when there are fewer |
| ParsepdfTransamerica.TransactionLines | src/core/parsepdf/transamerica.py:43-49 | The one line is the first that starts with "Totals "; an error exactly when there is none |
| ParsepdfTransamerica.ColumnsLayout | src/core/parsepdf/transamerica.py:63-91 | Nine distinct summary columns, the second the beginning balance; the five flow columns are the third to the seventh |
| ParsepdfTransamerica.SummaryOf | src/core/parsepdf/transamerica.py:74-76 | Each column name maps to the word at its position, and the summary holds no other key |
| ParsepdfTransamerica.FillSummary | src/core/parsepdf/transamerica.py:74-76 | The loop fills the summary exactly when the line has a word for every column; otherwise IndexError |
| ParsepdfTransamerica.ReadColumns | src/core/parsepdf/transamerica.py:93-94 | Every flow column is read as an amount, in order, exactly when all of them parse; otherwise ValueError |
| ParsepdfTransamerica.ReadFromThird | src/core/parsepdf/transamerica.py:85-94 | Reading the flow columns from the summary reads the line's words from the third on |
| ParsepdfTransamerica.FlowsAreWords | src/core/parsepdf/transamerica.py:85-94 | The five flows are the amounts of the line's third to seventh words, read exactly when all five parse |
| ParsepdfTransamerica.ParseTransactions | src/core/parsepdf/transamerica.py:52-105 | No line or a short line raises IndexError, an unreadable beginning balance ValueError; otherwise the nonzero flows, on the period's last day, with the running balance from the beginning balance |
| ParsepdfTransamerica.Parse | src/core/parsepdf/transamerica.py:108-118 | The steps run in order and the first that fails gives the error: the account number, the period, the missing totals line, IndexError for a totals line with too few words, ValueError for an unreadable beginning balance, then the first unreadable flow; a result holds the account number, the period, and the totals line's rows posted from its beginning balance, and one exists whenever every step succeeds |
| ParsepdfTransamerica.ParsedRows | src/core/parsepdf/transamerica.py:92-103 | Each row is a nonzero flow, on the last day, named after its column; the closing balance is the beginning balance plus the rows' amounts |
| ParseVanguard.AccountNumber | src/parse/vanguard.py:11-20 | The last word of the first line holding the "––" marker; no such line raises ValueError |
| ParseVanguard.StatementDates | src/parse/vanguard.py:23-40 | On the first line holding "ACCOUNT SUMMARY: ", the text after the last ":" split at "-" and stripped gives the two dates, read as `%m/%d/%Y`; no line raises ValueError, no "-" IndexError |
| ParseVanguard.TransactionLines | src/parse/vanguard.py:43-50 | The lines from "Your Account Summary" up to "Your Investments", empty when that comes first; either line missing is an error |
| ParseVanguard.EntryAmount | src/parse/vanguard.py:69-72 | An entry's amount is the first word left on its first line once the entry's name is removed; no such line raises ValueError, no word left IndexError |
| ParseVanguard.ReadSummary | src/parse/vanguard.py:67-72 | The loop maps exactly the five entries, each to its amount, or stops at the first entry's error |
| ParseVanguard.EntriesLayout | src/parse/vanguard.py:59-85 | Five distinct summary entries; the three flows are the second to the fourth |
| ParseVanguard.FlowItems | src/parse/vanguard.py:81-88 | The flows, each under its name, are the second to the fourth summary amounts |
| ParseVanguard.ParseTransactions | src/parse/vanguard.py:53-99 | The summary's error, or the nonzero flows on the period's last day with the running balance from the beginning balance |
| ParseVanguard.FiguresMeaning | src/parse/vanguard.py:67-72 | The summary is read exactly when every entry's amount is, and holds those amounts |
| ParseVanguard.ParsedRows | src/parse/vanguard.py:86-97 | Each row is a nonzero flow, on the last day, named after its entry; the closing balance is the beginning balance plus the rows' amounts |
| ParseVanguard.Parse | src/parse/vanguard.py:102-111 | The steps run in order and the first that fails gives the error: the account number, the period, the summary section, then the first summary entry that cannot be read; a result holds the account number, the period, and the summary's rows posted from its beginning balance, and one exists whenever every step succeeds |
| PdfFidelityhsa.StatementDates | src/plugins/pdf_fidelityhsa.py:74-93 | Any failure to read the period raises ValueError |
| PdfFidelityhsa.DatesMeaning | src/plugins/pdf_fidelityhsa.py:87-90 | The period is the first two stripped pieces, split at "-", of the first line matching the date pattern, each read as `%B %d, %Y`; no such line is an error |
| PdfFidelityhsa.AccountNumber | src/plugins/pdf_fidelityhsa.py:150-160 | The first word after "Account Number:" on the first line holding it; no such line raises ValueError |
| PdfFidelityhsa.BalanceAt | src/plugins/pdf_fidelityhsa.py:175-179 | A balance is the next-to-last word, "-" read as zero, of the first line starting with its label, returned with that line's index; no such line raises ValueError, a one-word line IndexError |
| PdfFidelityhsa.ReadBalances | src/plugins/pdf_fidelityhsa.py:169-183 | The loop stores a label's balance and index exactly when its lookup succeeds; a lookup's IndexError escapes and is the only error |
| PdfFidelityhsa.StatementBalances | src/plugins/pdf_fidelityhsa.py:162-194 | Both balances and their line indices exactly when both lookups succeed; IndexError when a lookup raises it, otherwise ValueError |
| PdfFidelityhsa.MissingBalanceRaises | src/plugins/pdf_fidelityhsa.py:185-187 | A missing balance line makes the balances fail |
| PdfFidelityhsa.DashBalanceIsZero | src/plugins/pdf_fidelityhsa.py:176-177 | A balance written "-" is zero |
| PdfFidelityhsa.PatternsDistinct | src/plugins/pdf_fidelityhsa.py:169 | The two balance labels differ, so the lookups fill separate entries |
| PdfFidelityhsa.GetStatementBalances | src/plugins/pdf_fidelityhsa.py:162-194 | The method gives the balances and indices defined above |
| PdfFidelityhsa.TransactionLines | src/plugins/pdf_fidelityhsa.py:196-203 | The lines strictly between the two balance lines, none when the end comes first |
| PdfFidelityhsa.ParseWords | src/plugins/pdf_fidelityhsa.py:217-246 | Under three words raises ValueError; the amount is the next-to-last word, "-" read as zero; the description is the words before it with every "*" removed, and must not be empty; both dates are the period's end |
| PdfFidelityhsa.ParseWordsMeaning | src/plugins/pdf_fidelityhsa.py:224-236 | A line is read exactly when its amount parses and its description is not empty; a "-" amount is zero |
| PdfFidelityhsa.ParseTransactionLines | src/plugins/pdf_fidelityhsa.py:205-248 | One transaction per line, in order, or the first line's error |
| PdfFidelityhsa.DatedAtEnd | src/plugins/pdf_fidelityhsa.py:239-243 | Every transaction of the account is dated the period's end |
| PdfFidelityhsa.Parser.constructor | src/plugins/pdf_fidelityhsa.py:36-52 | A new parser holds no lines |
| PdfFidelityhsa.Parser.GetStatementDates | src/plugins/pdf_fidelityhsa.py:74-93 | The period read is set; any failure raises ValueError and leaves the end date as it was, while the start date is whatever `StoredStart` says (stored before the end date is read) |
| PdfFidelityhsa.StoredStart | src/plugins/pdf_fidelityhsa.py:87-89 | Definition, no contract of its own: the start date left stored; stated by StoredStartOfPeriod and StoredStartMeaning |
| PdfFidelityhsa.StoredStartOfPeriod | src/plugins/pdf_fidelityhsa.py:89-90 | A period read leaves its own start date stored |
| PdfFidelityhsa.StoredStartMeaning | src/plugins/pdf_fidelityhsa.py:87-93 | No matching line stores nothing; a first piece that reads followed by a second piece that is missing or does not read raises ValueError with the new start stored |
| PdfFidelityhsa.Parser.ExtractAccount | src/plugins/pdf_fidelityhsa.py:104-148 | The account is read exactly when its number, balances and the lines between them are; every failure is ValueError |
| PdfFidelityhsa.Parser.Parse | src/plugins/pdf_fidelityhsa.py:36-72 | No lines raise ValueError; otherwise the period and exactly one account |
| PdfHehsa.StatementDates | src/plugins/pdf_hehsa.py:76-95 | Any failure to read the period raises ValueError |
| PdfHehsa.DatesMeaning | src/plugins/pdf_hehsa.py:88-92 | The period is the first two stripped pieces, split at "through", of the text after "Period:" on the first line matching the date pattern, each read as `%m/%d/%y`; no such line is an error |
| PdfHehsa.AccountNumber | src/plugins/pdf_hehsa.py:161-171 | The first word after "AccountNumber:" on the first line holding it; no such line raises ValueError |
| PdfHehsa.StartBalance | src/plugins/pdf_hehsa.py:173-191 | The start balance is the last word of the first line starting with "BeginningBalance", returned with that line's index; a missing line or an unreadable amount leaves the local unbound and raises UnboundLocalError |
| PdfHehsa.Section | src/plugins/pdf_hehsa.py:204-207 | The lines before the first one starting with "InterestRateScheduleEffective", or all of them |
| PdfHehsa.SectionAt | src/plugins/pdf_hehsa.py:204-207 | The section ends exactly at the first stop line |
| PdfHehsa.TransactionLinesMeaning | src/plugins/pdf_hehsa.py:193-213 | From the start line on, exactly the section's lines that start with `mm/dd/yyyy ` and a space, in order |
| PdfHehsa.GetTransactionLines | src/plugins/pdf_hehsa.py:193-213 | The loop gives the transaction lines defined above |
| PdfHehsa.ParseWords | src/plugins/pdf_hehsa.py:229-261 | Under three words raises ValueError; the first word is the date of both kinds, read as `%m/%d/%Y`; the next-to-last word is the amount and the last the balance, which is passed |
| PdfHehsa.JoinedWordsEmpty | src/plugins/pdf_hehsa.py:248-249 | Words joined with spaces are empty exactly when there are none |
| PdfHehsa.DescriptionMeaning | src/plugins/pdf_hehsa.py:248-250 | The description is the words between the date and the two amounts, or "Interest" when there are none; never empty |
| PdfHehsa.ParseTransactionLines | src/plugins/pdf_hehsa.py:215-263 | One transaction per line, in order, each with its balance, or the first line's error |
| PdfHehsa.EndBalance | src/plugins/pdf_hehsa.py:151 | The last transaction's balance, or the start balance when there are none |
| PdfHehsa.EndBalanceFromLastLine | src/plugins/pdf_hehsa.py:151-243 | The end balance is the amount in the last word of the last transaction line |
| PdfHehsa.Parser.constructor | src/plugins/pdf_hehsa.py:37-53 | A new parser holds no lines |
| PdfHehsa.Parser.GetStatementDates | src/plugins/pdf_hehsa.py:76-95 | The period read is set; any failure raises ValueError and leaves the end date as it was, while the start date is whatever `StoredStart` says (stored before the end date is read) |
| PdfHehsa.StoredStart | src/plugins/pdf_hehsa.py:88-91 | Definition, no contract of its own: the start date left stored; stated by StoredStartOfPeriod and StoredStartMeaning |
| PdfHehsa.StoredStartOfPeriod | src/plugins/pdf_hehsa.py:91-92 | A period read leaves its own start date stored |
| PdfHehsa.StoredStartMeaning | src/plugins/pdf_hehsa.py:88-95 | No matching line stores nothing; a first piece that reads followed by a second piece that is missing or does not read raises ValueError with the new start stored |
| PdfHehsa.Parser.ExtractAccount | src/plugins/pdf_hehsa.py:106-159 | The account is read exactly when its number, start balance and transactions are; the end balance follows the transactions; every failure is ValueError |
| PdfHehsa.Parser.Parse | src/plugins/pdf_hehsa.py:37-74 | No lines raise ValueError; otherwise the period and exactly one account |
| Records.Builds | src/core/validation.py:15-21 | With `balance` defaulting to None, every transaction a parser builds is constructed with exactly the dates, amount, balance and description it was given |
| Records.WithoutBalanceRaises | src/core/validation.py:15-21 | As declared, a parser's call that leaves out `balance` raises TypeError whatever else it passes |
| Ledger.PostAll | src/parse/usbank.py:86-114 | The running-balance loop: the lines' rows in order, each carrying the balance from the start plus the amounts so far, or the first line's error |
| Ledger.ClosingIsSum | src/parse/usbank.py:107 | After posting, the last balance is the start plus the sum of all amounts |
| Ledger.PostedUnique | src/parse/usbank.py:86-114 | The posted rows are determined by the start balance and the postings |
| Ledger.Posted | src/core/parsecsv/mohela.py:107-127 | The postings with their running balance from the start: same dates, amounts and descriptions, each balance the one before plus its amount |
| Ledger.RunningIsSum | src/core/parsecsv/mohela.py:107-127 | In a running ledger every row's balance is the start plus the amounts up to and including it |
| Ledger.PostNonzero | src/core/parsepdf/transamerica.py:92-103 | The summary loop posts exactly the nonzero flows, in order, with the running balance |
| Ledger.NonzeroMeaning | src/core/parsepdf/transamerica.py:96-98 | Every posting is a nonzero item on the given date, and every nonzero item is posted |
| Ledger.NonzeroRows | src/core/parsepdf/transamerica.py:92-103 | Every posted row is a nonzero item on the given date, and the closing balance is the start plus the rows' amounts |
| Ledger.TraverseOk | src/plugins/pdf_occucc.py:233-275 | A per-line parse succeeds exactly when every line does, and then gives each line's transaction at its position |
| Ledger.TraverseErr | src/plugins/pdf_occucc.py:233-275 | A failing per-line parse fails with the error of its first failing line |
| Ledger.TraverseAll | src/plugins/pdf_occucc.py:233-275 | The per-line loop gives the per-line parse: one result per line, in order |

## Left out

- Reading PDF, CSV and XLSX files, the GUI, logging, configuration, the network client and server, categorisation, machine learning and reports. These are I/O or outside the import core.
- `convert_amount_to_float`, `get_absolute_date`, `datetime.strptime` and regular-expression search are not part of this model. The code of the first two is not among the repository's files, and the other two belong to Python's library. They are parameters (`Helpers.Env`), and a missing answer stands for the ValueError they raise.
- The line-search helpers `find_param_in_line`, `find_line_startswith` and `find_regex_in_line` are not part of this model. `Lines` takes them as "the first line holding / starting with the pattern, else ValueError". `find_regex_in_line` is taken to give the matched text through the search parameter.
- The case-insensitive search (`case_sensitive=False`) takes its pattern already lowered. Only ASCII letters are lowered.
- Floating point: amounts are exact cents, so `round(x, 2)` and the float sums are exact here.
- `str.split()` splits on ASCII whitespace, and `splitlines()` only on newlines. `int()` accepts ASCII digits only.
- Formatted dates (`strftime("%Y-%m-%d")`) stay as day ordinals, except in standardized file names.
- MD5 is an injective function parameter. Collisions are not modelled.
- The database is a set of in-memory tables with unique keys. SQL text, transactions and rollback are not modelled, beyond the statement row that stays after a failed transaction insert (Statements.RetryIsDuplicate).
- `statements.import_single` calls `parse(db_path, fpath)` while `parse` takes one argument. The import model passes the file only; the two-argument call is recorded under Findings.
- Plugin loading: importing a module and instantiating its class are parameters. Only the registry's caching and lookup are modelled.
- Plugins.LoadPlugin: the required-variable check is `validate_parser_class` of src/build_plugins.py:27-42 (Plugins.ValidateParserClass), because `validate_parser` and `class_variables`, which src/core/plugins.py:7 imports, are defined nowhere; as written the module does not import at all (see Findings). The list of required variables is a parameter for the same reason.
- The US Bank plugin's `extract_account_number` is `pass`. The account number comes from the statement metadata, as in the code.
- OCCU annotation values are taken as already decoded text.
- The `lines_simple` of the US Bank plugin is a parameter, as the reader's simple extraction is not modelled.
- `pdf_wfbankpersonal.py` repeats the Wells Fargo transaction-array and truncation code of `src/core/parsepdf/wfbank.py`. One definition serves both.
- The US Bank plugin's transaction-line code repeats that of `pdf_occucc.py`. `CardLines` serves both.
- Files that are not part of this model: `src/plugins/pdf/citi.py`, `src/plugins/csv_mohela.py`, `src/plugins/xlsx_fedloan.py`, `src/core/parsexlsx/fedloan.py`, `src/parse/occucc.py`, `src/parse/hehsa.py`, `src/parse/fidelity401k.py`, `src/core/parsepdf/fidelityhsa.py`, `src/plugins/pdf_fidelity401k.py`, `src/plugins/pdf_vanguard.py`, `src/plugins/pdf_yamahafin.py`, `src/parsers/occubank.py`, `src/plugins/csv/occuauto.py` and `src/core/parsecsv/amazonbus.py`. They are further parsers of the same shape, outside the core.
- Db.Table.InsertIntoDb: returns the number of duplicates skipped, where `insert_into_db` returns None and only logs that number (src/core/db.py:93-96). The count stands in for the log line.
- ParsersWfbus.GetStatementDates: the contract states only that the period is ordered. That both dates take the long-format date's year, with the start moved to the year before on a rollover, is left to its definition.
- ParsepdfCiti.StatementDates: the contract states only that a period comes from a "Billing Period:" line. Which words are read is left to its definition.
- ParsepdfCapitaloneauto.ParseRow: the contract states only the short-row error and the least length. The row's transactions are stated by MeltMeaning and ParseRowSigned.
- ParsepdfOccubank.AccountsOf: the contract states only the missing-section error. The accounts are stated by DictAccounts, SectionsOf and AccountOfMeaning.
- PdfUsbank.StatementMetadata, PdfFidelityhsa.StatementDates, PdfHehsa.StatementDates: the contracts state only the error kind. What is read is stated by MetadataMeaning and the two DatesMeaning lemmas.

## Findings

| source | as written | input that shows it | evidently intended | confidence | as-written member | corrected member |
|---|---|---|---|---|---|---|
| src/core/validation.py:14-19 | `Transaction.balance` has no default, yet several parsers build transactions without it | the interest row of `src/plugins/pdf_occucc.py:295-300` or a transaction line of `src/core/parsepdf/citi.py:260-266`: the call raises TypeError | `balance` defaults to None, like `transaction_date` | not executed | Validation.NewTransactionAsWritten, Records.WithoutBalanceRaises | Validation.NewTransaction, Records.Builds |
| src/parsers/wfbus.py:76-92 | a transaction-looking line before the first table header starts a page with no header | the line `"  1/2  x"` followed by a header line: the pages are `["  1/2  x"]` and the header alone, and the first is parsed as if its first line were the header | lines before the first header are skipped, and every page starts with its header | not executed | ParsersWfbus.HeaderlessFirstPage, ParsersWfbus.ShortDateLine | ParsersWfbus.PagesWellFormed, ParsersWfbus.GetTransactionPages |
| src/core/parsepdf/occubank.py:57-64 | when both date readers fail, `"\n".join([e1, e2])` joins exception objects, which raises TypeError | a statement with no FROM/TO lines and no annotations | the ValueError that the code builds, naming both failures | not executed | ParsepdfOccubank.StatementDatesAsWritten, ParsepdfOccubank.DatesFallbackDiffers | ParsepdfOccubank.StatementDates |
| src/core/statements.py:246 | `import_single` calls `parse(db_path, fpath)`, but `parse` at src/core/parse.py:230 takes the file alone | any file whose hash is not yet in the Statements table: the call raises TypeError, so `import_all` moves the file to the fail directory, or stops when hard_fail is set, and no new statement is ever imported | `parse(fpath)` | not executed | Statements.ImportSingleAsWritten, Statements.ParseCalledWithTwoArguments | Statements.ImportSingleSpec, Statements.Importer.ImportSingle |
| src/core/plugins.py:7 | `from core.interfaces import IParser, validate_parser, class_variables`, but src/core/interfaces.py defines only `IParser` besides its own imports | importing `core.plugins` at all: the import raises ImportError before `load_plugin` or `PluginManager` can run, so no plugin is ever loaded | the validation helpers that src/build_plugins.py:14-42 defines, `get_required_class_variables` and `validate_parser_class` | not executed | Plugins.LoadPluginsAsWritten, Plugins.PluginsImportRaises | Plugins.ValidateParserClass, Plugins.LoadPlugin |
