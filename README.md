# zip_geosearch: a Dafny model of the application core

zip_geosearch is a small Express/MongoDB service over postal-code records. Each record has a zip code, a place name, a country code and coordinates. At start-up it loads a CSV file into a MongoDB collection `zip`. Before the load it normalises every row: the internal `id` and `loc_id` columns are removed, and the `lat`/`lon` text columns are replaced by a `location` point. It then serves two routes:

- `GET /:zip/:rng` returns the zip codes within `rng` kilometres of a zip code. MongoDB's `$nearSphere` query does the search.
- `GET /:search?` returns the top five full-text matches.

This project models what `app.js` itself computes. MongoDB is not modelled. Each database call is a parameter of the model, either a function or a sequence:

- `Js`: the JavaScript semantics the code relies on. `Maybe` stands for `undefined`. `Truthy` is the truthiness of a route parameter. `LessThan` and `GreaterThan` are number comparisons in which NaN compares false.
- `Records`: documents as maps from property names to values. `InsertDocuments` is the in-place normalisation loop over an array of rows. It is proved against the specification functions `Normalize` and `NormalizeAll`.
- `Setup`: the start-up rebuild decision (`count <= 0 || FORCE_RECREATE`). `Init` drops the collection and inserts the normalised CSV rows, or writes nothing; an empty CSV file aborts start-up.
- `Routes`: the two request guards and the spatial query the proximity route builds. Also the push loop that fills `nearest`, and the two route handlers.

Behaviour of the code as written that the model keeps:

- Coordinates are stored latitude first (`[lat, lon]`). Section 3.1.1 of RFC 7946 orders a GeoJSON position longitude first.
- A non-numeric `rng` converts to NaN. Both range comparisons are then false, so the guard lets the request through. `$maxDistance` is then NaN (`Routes.ProximityRequestInvalid`, `Routes.AcceptedNearQueryRadius`). Whether the store accepts a NaN `$maxDistance` is not modelled.
- The `!nearby` check after the spatial query can never fire, because an array is always truthy.
- A set `FORCE_RECREATE` is a string, so any non-empty value forces a rebuild, including `"false"` (`Setup.ForceRecreate`).

## Model

| member | source | states |
|---|---|---|
| `Records.Normalize` | app.js:22-30 | a normalised row has exactly the original keys minus `id`, `loc_id`, `lat`, `lon`, plus `location`; `location` is a `"Point"` with coordinates `[parseFloat(lat), parseFloat(lon)]` of that row, latitude first (each cell parsed by `CoordinateOf`, the `Number.parseFloat` call of app.js:26); every other property keeps its value |
| `Records.NormalizeAll` | app.js:20-31 | normalising the row set keeps the number of rows |
| `Records.NormalizeAllAt` | app.js:20-31 | row `i` of the normalised set is row `i` of the input normalised, so the order of the rows is kept |
| `Records.NormalizedRowsHaveNoInternalColumns` | app.js:22-29 | after normalisation no row has an `id`, `loc_id`, `lat` or `lon` property |
| `Records.NormalizedRowsLocation` | app.js:24-30 | after normalisation every row's `location` is the Point built from that same row's own `lat` and `lon`, latitude first |
| `Records.NormalizedRowsKeepOtherFields` | app.js:20-31 | every property other than `id`, `loc_id`, `lat`, `lon`, `location` is present after normalisation exactly when it was before, with the same value |
| `Records.StepwiseNormalize` | app.js:22-30 | the two deletions, the construction of `location` from the remaining `lat`/`lon`, the two further deletions and the assignment, done in the source's order, give the normalised row |
| `Records.InsertDocuments` | app.js:17-35 | the loop rewrites the array in place so that it equals the normalised rows; the batch handed to `insertMany` is that array's contents, and the insert is rejected exactly when the batch is empty |
| `Setup.ForceRecreate` | app.js:9 | the force flag is set exactly when the environment variable is present and non-empty, so `"false"` also forces a rebuild |
| `Setup.Init` | app.js:49-64 | the rebuild condition of app.js:51 (`ShouldRebuild`, with the flag computed by `ForceRecreate` from the environment value) holds exactly when the stored count is 0 or `FORCE_RECREATE` is truthy; after a rebuild the documents inserted are the normalised CSV rows, as many as there are rows; an empty CSV file leaves the collection dropped and empty and aborts start-up; after a rebuild from a non-empty file start-up goes on exactly when both index builds succeed (`IndexesBuilt`, app.js:59-60); otherwise nothing is written and start-up goes on |
| `Routes.ProximityRequestInvalid` | app.js:102-105 | the proximity request is rejected exactly when `zip` or `rng` is missing or empty, or `rng` converts to a finite number below 0 or above 200, or to an infinity; the bounds 0 and 200 are accepted; a non-numeric `rng` (NaN) is accepted |
| `Routes.AcceptedNearQueryRadius` | app.js:118 | for an accepted request the `$maxDistance` sent to the store is a finite number of metres in `[0, 200000]`, or NaN exactly when `rng` is not a number |
| `Routes.SearchRequestInvalid` | app.js:143-146 | the search request is rejected exactly when `search` is missing or empty |
| `Routes.BuildNearest` | app.js:129-133 | `nearest` has one entry per hit, and entry `i` carries hit `i`'s `zip_code`, so the order of the spatial query's result is kept |
| `Routes.HandleProximity` | app.js:101-136 | 400 exactly when the guard rejects; an unknown zip (no answer to the `{zip_code: zip}` filter `ZipFilter` of app.js:113) gives an empty array and not an error; otherwise the response's `country_code`, `zip_code` and `name` are the anchor record's, and `nearest` lists the hits' zip codes in order, for the query `NearQueryFor` of app.js:118, centred on the anchor's `location` with `$maxDistance` `rng * 1000` (`KilometersToMeters`) |
| `Routes.HandleSearch` | app.js:142-163 | 400 exactly when `search` is missing or empty; otherwise the response is the store's answer to the text query for `search`, which hides `_id` and `nearest`, is sorted by text score and is limited to 5 hits |

## Left out

- The MongoDB client lifecycle is not modelled, because it is I/O against a library outside the code: `connect`, `close`, `countDocuments`, `insertMany`, `drop` and `createIndex`. The stored collection and the parsed CSV rows are inputs, and `Setup.Init` returns the documents inserted, or the stored documents when nothing is written. Whether each index build succeeds is the store's answer, the parameter `createIndex`; the indexes themselves are not modelled.
- `$nearSphere` geodesic search and `$text` relevance scoring are not modelled. They are algorithms of the database. The handlers take the store's answers as the function parameters `findOne`, `nearSphere` and `textFind`, which are opaque. No distance formula appears in the code, so none is modelled.
- `Number.parseFloat` and JavaScript's string-to-number conversion are not modelled. They are floating-point parsing, so the caller supplies them as the functions `parseFloat` and `toNumber`. Only the two cases that always give NaN are modelled: an `undefined` argument and an object argument.
- Setup.Init: the drop is passed a callback, so `await` does not wait for it. The model treats the drop as finished before the insert; this concurrency is not modelled.
- Setup.Init: an empty CSV file is modelled: `insertMany` rejects the empty batch, `init` rejects, and start-up aborts before the server listens, with the collection dropped and empty. A failed index build is modelled too: `createIndex` then rejects and start-up aborts, so `started` holds after a rebuild only when both the text and the `2dsphere` index builds succeed. Which documents make the `2dsphere` build fail is the store's rule and is not modelled; because the points are stored latitude first, a row whose longitude exceeds 90 in magnitude, or whose `lat` or `lon` cell is empty or missing (a NaN coordinate), can make it fail. Other failures while parsing, dropping or inserting are not modelled, because they come from the database or the file system.
- Setup.Init: the store adds an `_id` to each document it stores, which the search route then hides. A `Records.Value` cannot hold an `_id`, so `after` is the batch handed to `insertMany`, not the stored documents with their `_id`.
- Routes.HandleProximity: a rejected store call (`connect`, `findOne` or the `$nearSphere` `find`) is not modelled; `findOne` and `nearSphere` always answer. In the source the handler has no `catch`, so it then rejects without sending an answer.
- Routes.HandleSearch: a rejected store call (`connect` or the `$text` `find`) is not modelled; `textFind` always answers. In the source the handler has no `catch`, so it then rejects without sending an answer.
- JavaScript numbers are modelled as exact reals with no rounding, so `KilometersToMeters` computes `rng * 1000` exactly and not as a rounded double. The `[0, 200000]` bound of `Routes.AcceptedNearQueryRadius` also holds with rounding.
- Routes.ProximityRequestInvalid: models only the numeric default bound of 200. When `MAX_DIST_KM` is set in the environment it is a string, and `rng > MAX_DIST_KM` becomes a lexicographic string comparison. That case is not modelled.
- Records.Normalize: JavaScript object key order is not modelled, because documents are maps. In the source, `location` becomes the last key.
- Records.InsertDocuments: the rows are values in an array, so two array slots that refer to the same object are not modelled. The CSV parser returns one object per row.
- Express routing, `app.listen`, logging, the async sequencing and the connection `try`/`finally` are not modelled.
- `data_setup/sqltocsv.py` is not part of this model. It is a one-off export from SQLite to CSV and has no logic of its own.
