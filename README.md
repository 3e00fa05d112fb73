# Smart agriculture system — a verified model of its core

The system collects soil-moisture readings from field sensors. Sensors
publish over MQTT. A broker client stores every moisture message in a
SQLite database with two tables, `sensors` and `moisture_data`. A Next.js
API lists and registers sensors, records and queries readings, and edits
an allow-list of sensor ids. A React dashboard shows badges, counts and a
chart. A maintenance script deletes every sensor that is not authorized,
together with its readings, in one transaction.

This project models that core in Dafny and proves what each part promises:

- `js_values.dfy`: JavaScript values as the handlers see them (`null`,
  booleans, numbers, strings, objects), truthiness, `||` defaulting and
  destructuring, where a property of `null` throws.
- `strings.dfy`: `split`, `trim` and `toLowerCase` on strings.
- `database.dfy` (`lib/database.ts`): both tables as sequences held by the
  class `Store`, with create, get, update and delete. It also holds the
  pure queries: filter, `ORDER BY timestamp DESC`, `LIMIT/OFFSET` and the
  time windows. The SET clause of `update` is built from the keys as a
  string, and its placeholders are counted against the bound values.
- `mqtt_client.dfy` (`lib/mqtt-client.ts`): topic routing and the
  connection flag, modelled as the class `Client`. Also the
  publish/disconnect gate, the handlers' effect on the store, and the
  lazily created singleton.
- `cleanup.dfy` (`scripts/cleanup-unauthorized-sensors.js`): the
  allow-list set-up, `isAllowedSensor`, the categorisation loop, the
  record total, the confirmation, and the all-or-nothing deletion with
  rollback.
- `http.dfy`, `sensors_route.dfy`, `allowed_sensors_route.dfy`,
  `moisture_data_route.dfy` (`app/api/...`): the route handlers as
  validators and dispatchers over the store and over an allow-list set.
  The moisture GET copies its rows into an array and sorts it in place.
- `dashboard.dfy` (`components/dashboard.tsx`): the moisture thresholds,
  the three sensor counts, the chart window and the grouping of chart
  points by sensor.

The environment is passed in as parameters:

- the clock is `now`, in whole seconds;
- the result of `JSON.parse` / `request.json()` is an `Option`, with
  `None` meaning it threw;
- a failure of storage or the allow-list object is a `fault` flag;
- the cleanup script's environment variable and the operator's answer are
  arguments;
- a failing statement inside the cleanup transaction is `failAt`.

Where the code and its documentation disagree, the model follows the code:

- The MQTT client has no prefix or allow-list filter and does not
  provision sensors.
- It subscribes to `sensor/+/moisture`, not `sensor/+/data`.

The foreign key of `moisture_data` (scripts/init-database.js:73) is
enforced. The SQLite that better-sqlite3 bundles is built with foreign
keys on, so no `PRAGMA foreign_keys` is needed. `Database.Store.Valid`
keeps it as an invariant: every reading names a sensor of the table. As a
result:

- a reading of a sensor that is not in the table is refused
  (`ForeignKeyViolation`);
- a sensor that still has readings can be neither deleted nor renamed;
- the cleanup script deletes a sensor's readings before the sensor for
  this reason (scripts/cleanup-unauthorized-sensors.js:97).

## Model

| member | source | states |
|---|---|---|
| JsValues.Or | app/api/sensors/route.ts:26-28 | `a \|\| b` is `a` exactly when `a` is truthy, otherwise `b` |
| JsValues.Field | app/api/sensors/route.ts:17 | destructuring gives the property when present and undefined (None) when absent; destructuring `null` throws |
| JsValues.OrStr | scripts/cleanup-unauthorized-sensors.js:16 | `s \|\| d` on an optional string agrees with the general `\|\|`: an unset or empty string gives the default |
| JsValues.OrNum | components/dashboard.tsx:157 | `n \|\| d` on an optional number agrees with the general `\|\|`: a missing or zero number gives the default |
| Strings.Split | lib/mqtt-client.ts:66 | `split` always yields at least one piece |
| Strings.SplitPieces | lib/mqtt-client.ts:66 | no piece of `split` contains the separator |
| Strings.SplitJoin | lib/mqtt-client.ts:66 | joining the pieces with the separator gives back the string |
| Strings.SplitNoSep | lib/mqtt-client.ts:66 | a string without the separator splits into itself |
| Strings.SplitCons | lib/mqtt-client.ts:66 | splitting `a + sep + b`, with no separator in `a`, gives `a` and then the pieces of `b` |
| Strings.SplitUnique | lib/mqtt-client.ts:66 | separator-free pieces joined by the separator split back into exactly those pieces |
| Strings.TrimStartSpec | scripts/cleanup-unauthorized-sensors.js:16 | dropping leading white space leaves a suffix that starts with a non-space |
| Strings.TrimEndSpec | scripts/cleanup-unauthorized-sensors.js:16 | dropping trailing white space leaves a prefix that ends with a non-space |
| Strings.Trim | scripts/cleanup-unauthorized-sensors.js:16 | `trim` is a slice of the input; everything cut off before and after it is white space, and the slice has no white space at either end |
| Strings.ToLower | scripts/cleanup-unauthorized-sensors.js:81 | `toLowerCase` keeps the length and lowers every letter A-Z, leaving other characters alone |
| Database.BindReal | lib/database.ts:107-113 | undefined and null bind as NULL, a number as itself; any other value cannot be bound |
| Database.ReadingRow | lib/database.ts:107-113 | the inserted reading takes the store's id and timestamp; it exists iff the moisture is a number (NOT NULL) and temperature and humidity bind |
| Database.FindSensor | lib/database.ts:78-81 | the lookup finds a row with that id exactly when the table has one |
| Database.SensorsNotIn | lib/database.ts:98-101 | the sensors kept are exactly those whose id is not deleted |
| Database.ReadingsOf | lib/database.ts:116-124 | `WHERE sensor_id = ?` keeps exactly that sensor's readings, a sub-multiset of the table |
| Database.ReadingsNotIn | scripts/cleanup-unauthorized-sensors.js:86 | `DELETE FROM moisture_data WHERE sensor_id = ?` keeps exactly the readings of the other sensors |
| Database.ReadingsSince | lib/database.ts:127-143 | the time window keeps exactly the readings at or after the cut-off |
| Database.SortNewestFirst | lib/database.ts:120 | `ORDER BY timestamp DESC` gives a permutation ordered newest first |
| Database.Page | lib/database.ts:121 | `LIMIT ? OFFSET ?` returns at most `limit` rows, those starting at `offset`, in order |
| Database.Keys | lib/database.ts:85 | `Object.keys` lists the keys of the update in order |
| Database.UpdateBindings | lib/database.ts:88-94 | the values are bound in key order, followed by the sensor id |
| Database.Assignments | lib/database.ts:85-86 | `map(key => `${key} = ?`)` gives one assignment per key, in key order, each the key followed by ` = ?` |
| Database.SetClausePlaceholders | lib/database.ts:85-87 | the SET list has one `?` per key |
| Database.UpdateSqlPlaceholders | lib/database.ts:89-93 | the UPDATE statement has one placeholder per key plus one for the WHERE clause |
| Database.UpdatePlaceholdersMatchBindings | lib/database.ts:84-95 | the statement's placeholder count equals the number of bound values |
| Database.CheckUpdate | lib/database.ts:84-95 | preparing fails with a syntax error iff the update is empty (`SET , updated_at`), and with an unknown column iff some key, compared ignoring ASCII case, is neither one of the eight columns nor a row id alias (`rowid`, `oid`, `_rowid_`); binding then fails iff some value is not null, a number or a string; otherwise the statement runs |
| Database.CaseVariantAssigns | lib/database.ts:85-91 | `{"Location": "Barn"}` passes both checks and assigns the column location |
| Database.AssignedSpec | lib/database.ts:85-91 | the value a column receives is that of the rightmost assignment whose key names it in any ASCII case, and there is none exactly when no key names it |
| Database.ApplyUpdates | lib/database.ts:84-94 | every assigned column takes its rightmost assigned value, every other column keeps its value, and updated_at becomes now even when assigned; NULL in location or type violates NOT NULL; a value the typed row cannot hold is reported as not represented |
| Database.ReplaceSensor | lib/database.ts:92 | `WHERE sensor_id = ?` replaces only the row with that id |
| Database.Latest | lib/database.ts:64-69 | the latest reading is one of the sensor's readings, with no later timestamp among them |
| Database.RowAsWritten | lib/database.ts:55-73 | the getAll row as the SQL computes it: it carries the sensor, a latest moisture iff the sensor has readings, and a readings_count that is 0 iff it has none and never below the number of its readings |
| Database.Row | lib/database.ts:58-62 | the intended getAll row: the sensor, readings_count equal to its number of readings, and a latest moisture iff it has readings, taken from a newest reading |
| Database.RowAsWrittenVersusRow | lib/database.ts:58-70 | the SQL's row and the intended row differ at most in readings_count, and not at all when no two of the sensor's readings share a second |
| Database.AllRows | lib/database.ts:54-75 | getAll as the SQL computes it: one row per sensor, newest table entry first, each row the SQL's row of that sensor |
| Database.IntendedAllRows | lib/database.ts:54-75 | the intended list: the same sensors in the same order, each with its intended row |
| Database.AllRowsWithoutTies | lib/database.ts:62-70 | without two readings of one sensor in the same second, the SQL's list is the intended list |
| Database.ReadingsCountAsWrittenOvercounts | lib/database.ts:62-70 | two readings at the same second are reported by the SQL as four |
| Database.Store.constructor | lib/database.ts:4-5 | a freshly created database file: both tables empty and the first reading id 1 |
| Database.Store.CreateSensor | lib/database.ts:38-51 | the insert appends exactly the six given columns with both timestamps now; an existing id fails on the primary key and changes nothing |
| Database.Store.GetById | lib/database.ts:78-81 | returns the table's row with that id, or undefined when there is none |
| Database.Store.GetAll | lib/database.ts:54-75 | exactly the SQL's list (AllRows) for the current tables: one row per sensor, newest table entry first, with a latest moisture iff the sensor has readings |
| Database.Store.Update | lib/database.ts:84-95 | prepare and bind errors come first; with no sensor of that id it reports 0 and changes nothing; otherwise the row of that id becomes the updated row and it reports 1, unless the new row violates NOT NULL, cannot be represented, takes another sensor's id (primary key), or renames a sensor that has readings (foreign key, checked after the primary key); every error changes nothing |
| Database.Store.DeleteSensor | lib/database.ts:98-101 | a sensor that has readings is refused by the foreign key and nothing changes; otherwise removes only the sensor with that id and reports 1 or 0 rows |
| Database.Store.CreateReading | lib/database.ts:107-113 | the caller supplies no id and no timestamp; binding and NOT NULL errors come first, then a reading of a sensor not in the table fails on the foreign key; otherwise the store appends the row with a fresh id and now, and returns that id; every error changes nothing |
| Database.AddSensorKeepsReferences | lib/database.ts:38-51 | adding a sensor keeps every reading's reference to its sensor |
| Database.SensorsNotInKeepsReferences | lib/database.ts:98-101 | deleting sensors that no reading names keeps every reading's reference |
| Database.ReplaceKeepsUnique | lib/database.ts:84-95 | updating a sensor keeps sensor_id unique when the new id is its own or unused |
| Database.ReplaceKeepsReferences | lib/database.ts:84-95 | updating a sensor keeps every reference when its id stays or when it has no readings |
| Database.Store.DeleteReadingsOf | scripts/cleanup-unauthorized-sensors.js:98-99 | removes exactly that sensor's readings and reports how many |
| Database.Store.GetBySensor | lib/database.ts:116-124 | exactly the page at `offset` of at most `limit` rows of that sensor's readings sorted newest first; with offset 0 and few enough rows, all of them |
| Database.PageOfNewestFirst | lib/database.ts:120-121 | a page of a newest-first list is newest first and drawn from it; from offset 0 a page that fits is the whole list |
| Database.Store.GetRecent | lib/database.ts:127-134 | exactly the readings of the last `hours` hours, newest first |
| Database.Store.DeleteOlderThan | lib/database.ts:137-143 | removes exactly the readings older than `days` days and reports how many |
| Database.SensorsNotInUnique | lib/database.ts:98-101 | deleting sensors keeps the primary key unique |
| Database.RemoveOneSensor | lib/database.ts:98-101 | delete by key removes one row when the id is present and none otherwise |
| MqttClient.KindOf | lib/mqtt-client.ts:72-82 | the switch knows exactly `moisture`, `register` and `status` |
| MqttClient.Route | lib/mqtt-client.ts:63-86 | a payload that is not JSON reaches no handler; a handled message has sensor id = segment 1 and kind = segment 2 |
| MqttClient.RouteOfTopic | lib/mqtt-client.ts:66-82 | `p/id/kind` dispatches to kind's handler with sensor id `id` when the switch knows the kind, and to nothing otherwise |
| MqttClient.ShortTopicNoHandler | lib/mqtt-client.ts:66-82 | a topic with two segments dispatches nothing |
| MqttClient.MoistureReading | lib/mqtt-client.ts:90-95 | the row has the topic's sensor id, `moisture \|\| value`, and temperature and humidity carried through; a null payload throws |
| MqttClient.MessageEffect | lib/mqtt-client.ts:63-99 | only a parsed `moisture` message with a working store, for a sensor in the table, writes a reading, with the topic's id, the next id and now |
| MqttClient.StoredMoistureValue | lib/mqtt-client.ts:92 | for a sensor in the table, a truthy moisture is stored; a zero or missing moisture falls through to `value`; with neither, or for a sensor not in the table, nothing is stored |
| MqttClient.Client.constructor | lib/mqtt-client.ts:8-10 | a new client has a session, is not connected and has no subscriptions |
| MqttClient.Client.OnConnect | lib/mqtt-client.ts:27-31 | `connect` sets the flag and subscribes to the three filters |
| MqttClient.Client.SubscribeToTopics | lib/mqtt-client.ts:46-61 | one subscribe per filter, in order: `sensor/+/moisture`, `sensor/+/register`, `sensor/+/status` |
| MqttClient.Client.OnError | lib/mqtt-client.ts:33-36 | `error` clears the flag |
| MqttClient.Client.OnOffline | lib/mqtt-client.ts:38-41 | `offline` clears the flag |
| MqttClient.Client.HandleMessage | lib/mqtt-client.ts:63-111 | the store gains the one reading of MessageEffect or nothing; sensors never change; no error escapes |
| MqttClient.Client.HandleMoistureData | lib/mqtt-client.ts:88-100 | one insert attempt, which succeeds iff the payload gives a storable row of a sensor in the table and the store works; on failure the store is unchanged and the message is dropped |
| MqttClient.Client.Publish | lib/mqtt-client.ts:113-128 | true and one message sent iff there is a connected session; otherwise false and nothing sent |
| MqttClient.Client.Disconnect | lib/mqtt-client.ts:130-135 | ends the session and clears the flag; a no-op without a session |
| MqttClient.Client.GetConnectionStatus | lib/mqtt-client.ts:137-139 | returns the connected flag |
| MqttClient.Singleton.GetMqttClient | lib/mqtt-client.ts:142-150 | creates the client on the first call and returns that same client afterwards |
| MqttClient.SameClientTwice | lib/mqtt-client.ts:145-150 | two calls return the same client |
| Cleanup.TrimAll | scripts/cleanup-unauthorized-sensors.js:16 | `map(s => s.trim())` builds a new list of the same length whose piece i is piece i trimmed |
| Cleanup.AllowedSensorsFrom | scripts/cleanup-unauthorized-sensors.js:16 | the explicit list is the trimmed comma-split of the variable, or of the default |
| Cleanup.DefaultAllowList | scripts/cleanup-unauthorized-sensors.js:16 | without the variable the list is SENSOR_01, ESP32_001, ESP32_002, ESP32_TEST |
| Cleanup.SplitFour | scripts/cleanup-unauthorized-sensors.js:16 | four separator-free ids joined by commas split into those four |
| Cleanup.HasPrefixIn | scripts/cleanup-unauthorized-sensors.js:23 | `some(prefix => id.startsWith(prefix))` |
| Cleanup.IsAllowedSensor | scripts/cleanup-unauthorized-sensors.js:15-25 | allowed iff in the explicit list or starting with ESP32_, SENSOR_ or AGRI_ |
| Cleanup.Summaries | scripts/cleanup-unauthorized-sensors.js:28-39 | one row per sensor, with data_count its number of readings |
| Cleanup.Authorized | scripts/cleanup-unauthorized-sensors.js:46-49 | holds exactly the allowed rows |
| Cleanup.Unauthorized | scripts/cleanup-unauthorized-sensors.js:50-52 | holds exactly the rows that are not allowed |
| Cleanup.AuthorizedSnoc | scripts/cleanup-unauthorized-sensors.js:46-54 | one more row joins the authorized list exactly when allowed, at its end |
| Cleanup.UnauthorizedSnoc | scripts/cleanup-unauthorized-sensors.js:46-54 | one more row joins the unauthorized list exactly when not allowed, at its end |
| Cleanup.CategoriesPartition | scripts/cleanup-unauthorized-sensors.js:43-54 | the two lists together hold every row once, and their lengths sum to the total |
| Cleanup.Categorise | scripts/cleanup-unauthorized-sensors.js:43-54 | the forEach builds exactly the two order-preserving lists |
| Cleanup.TotalRecords | scripts/cleanup-unauthorized-sensors.js:63-67 | the loop's total is the sum of data_count |
| Cleanup.ConfirmedAnswers | scripts/cleanup-unauthorized-sensors.js:81 | the confirming answers are `y` and `yes` in any case |
| Cleanup.IdSet | scripts/cleanup-unauthorized-sensors.js:94 | the ids the transaction deletes are exactly the listed rows' ids |
| Cleanup.SensorsNotInGrow | scripts/cleanup-unauthorized-sensors.js:102 | deleting one more sensor id adds it to the deleted set |
| Cleanup.ReadingsNotInGrow | scripts/cleanup-unauthorized-sensors.js:98 | deleting one more sensor's readings adds its id to the deleted set |
| Cleanup.DeleteStep | scripts/cleanup-unauthorized-sensors.js:94-104 | one loop iteration moves from the prefix's deletions to those of the next prefix |
| Cleanup.DeleteOne | scripts/cleanup-unauthorized-sensors.js:97-103 | readings first, then the sensor row, which the foreign key then lets go; fails iff either statement fails |
| Cleanup.DeleteUnauthorized | scripts/cleanup-unauthorized-sensors.js:90-107 | on commit both tables lose exactly the listed ids, and the counts are the rows removed; any failing statement restores both tables |
| Cleanup.Rollback | scripts/cleanup-unauthorized-sensors.js:124-126 | the rollback restores the snapshot taken when the transaction began |
| Cleanup.ReadingsNotInOneCount | scripts/cleanup-unauthorized-sensors.js:98-99 | deleting one sensor's readings removes exactly its count |
| Cleanup.CountForNotIn | scripts/cleanup-unauthorized-sensors.js:98-99 | deleting other sensors' readings leaves a sensor's count alone |
| Cleanup.TotalIsDeletedCount | scripts/cleanup-unauthorized-sensors.js:63-67 | the announced total equals the number of readings the transaction removes |
| Cleanup.UnauthorizedDistinct | scripts/cleanup-unauthorized-sensors.js:43-54 | filtering keeps the ids distinct |
| Cleanup.SummariesDistinct | scripts/cleanup-unauthorized-sensors.js:35 | GROUP BY sensor_id gives distinct ids |
| Cleanup.UnauthorizedIds | scripts/cleanup-unauthorized-sensors.js:43-54 | a table sensor is listed as unauthorized iff it is not allowed |
| Cleanup.DeletingUnauthorized | scripts/cleanup-unauthorized-sensors.js:90-122 | afterwards only authorized sensors remain and all of them do, no reading of a deleted sensor is left, authorized sensors' readings stay, and the counts match the list and the total |
| Cleanup.Run | scripts/cleanup-unauthorized-sensors.js:14-131 | nothing is deleted unless there are unauthorized sensors and the answer confirms; the run commits exactly when there are unauthorized sensors, the answer confirms and no statement of the transaction fails; a committed run leaves both tables without exactly the unauthorized ids, so only authorized sensors remain, and reports as deleted exactly the rows removed, which match the list and the announced total; otherwise both tables are unchanged |
| Cleanup.RemovedCount | scripts/cleanup-unauthorized-sensors.js:102-103 | the transaction removes exactly as many sensors as it lists |
| Cleanup.SensorsNotInSameOn | scripts/cleanup-unauthorized-sensors.js:102 | deletion depends only on the ids present in the table |
| SensorsRoute.Destructure | app/api/sensors/route.ts:16-17 | each of the five fields is the body's property of that name, undefined when absent; a null body throws |
| SensorsRoute.SensorToCreate | app/api/sensors/route.ts:23-30 | status is always "active"; falsy type and calibration take "soil_moisture", 0 and 1023; truthy values are passed through |
| SensorsRoute.FalsyValuesTakeDefaults | app/api/sensors/route.ts:26-28 | an empty type and a calibration_max of 0 are replaced by the defaults |
| SensorsRoute.CreateFailure | app/api/sensors/route.ts:33-41 | 409 exactly for a duplicate primary key, 500 otherwise |
| SensorsRoute.Get | app/api/sensors/route.ts:4-12 | the store's full sensor list, or 500 |
| SensorsRoute.Post | app/api/sensors/route.ts:14-42 | 400 iff sensor_id or location is falsy; 201 adds exactly one sensor; 409 iff the id exists; every non-201 leaves the table unchanged |
| AllowedSensorsRoute.AllowList.constructor | app/api/allowed-sensors/route.ts:6-7 | the list starts as given |
| AllowedSensorsRoute.AllowList.Add | app/api/allowed-sensors/route.ts:27 | adds exactly that id |
| AllowedSensorsRoute.AllowList.Remove | app/api/allowed-sensors/route.ts:30 | removes exactly that id |
| AllowedSensorsRoute.Destructure | app/api/allowed-sensors/route.ts:17-18 | sensorId and action are the body's properties of those names, undefined when absent; a null body throws |
| AllowedSensorsRoute.Decide | app/api/allowed-sensors/route.ts:20-34 | 400 iff either field is falsy; add iff action is "add"; remove iff "remove"; any other action is a 400 |
| AllowedSensorsRoute.Get | app/api/allowed-sensors/route.ts:4-13 | the current list, or 500 |
| AllowedSensorsRoute.Post | app/api/allowed-sensors/route.ts:15-39 | add or remove exactly the id and answer with it; a 400 or a failure leaves the list unchanged |
| MoistureDataRoute.SourceOf | app/api/moisture-data/route.ts:11-19 | a date range iff both from and to are given, else by sensor iff sensor_id is given, else the last 24 hours |
| MoistureDataRoute.ByDateRange | app/api/moisture-data/route.ts:12 | the range query returns exactly the readings the range accepts |
| MoistureDataRoute.Selected | app/api/moisture-data/route.ts:11-19 | the selected query's rows: the first page of 100 of that sensor's readings newest first; or the readings of the last 24 hours, each once, newest first; or the readings the range accepts (membership only) |
| MoistureDataRoute.SortByTimestamp | app/api/moisture-data/route.ts:21 | the in-place sort leaves a permutation of the array in ascending timestamp order |
| MoistureDataRoute.InsertAt | app/api/moisture-data/route.ts:21 | one insertion step extends the sorted prefix by one and permutes the array |
| MoistureDataRoute.Get | app/api/moisture-data/route.ts:4-27 | 200 with a permutation of the selected rows sorted ascending, or 500 |
| MoistureDataRoute.Destructure | app/api/moisture-data/route.ts:31-32 | sensor_id and moisture_value are the body's properties of those names, undefined when absent; a null body throws |
| MoistureDataRoute.ReadingToCreate | app/api/moisture-data/route.ts:38-42 | the reading takes the body's id and moisture, with no temperature or humidity |
| MoistureDataRoute.Post | app/api/moisture-data/route.ts:29-49 | 400 iff sensor_id is falsy or moisture_value is undefined (0 is accepted); 201 iff the values can be stored and the sensor is in the table, inserting one reading and returning its id; a sensor not in the table answers 500; anything else changes nothing |
| Dashboard.StatusColor | components/dashboard.tsx:82-86 | destructive below 30, secondary from 30 to below 60, default from 60 |
| Dashboard.LabelMatchesColor | components/dashboard.tsx:88-92 | Low, Medium and Optimal go with destructive, secondary and default |
| Dashboard.Reverse | components/dashboard.tsx:97 | `reverse` puts item k at position n-1-k |
| Dashboard.Items | components/dashboard.tsx:98-104 | `map` turns each reading into its chart point, in order |
| Dashboard.ChartData | components/dashboard.tsx:95-104 | the chart has min(100, n) points, and point k is reading min(100, n)-1-k |
| Dashboard.ChartNewestFirst | components/dashboard.tsx:95-97 | on ascending readings the chart's times run backwards |
| Dashboard.ChartDropsNewest | components/dashboard.tsx:95-97 | with more than 100 ascending readings, the newest is not on the chart |
| Dashboard.IntendedChartData | components/dashboard.tsx:95-104 | the corrected chart: the last min(100, n) readings in order |
| Dashboard.IntendedChartInOrder | components/dashboard.tsx:95-104 | the corrected chart runs forward in time and ends with the newest reading |
| Dashboard.Group | components/dashboard.tsx:107-116 | a sensor's group is no longer than the chart (its members, order and multiplicity are stated by GroupMembers, GroupAppend and GroupSingle) |
| Dashboard.GroupAppend | components/dashboard.tsx:107-116 | the group of a concatenation is the first part's group followed by the second's, so a group keeps chart order and holds each item once |
| Dashboard.GroupSingle | components/dashboard.tsx:109-112 | a one-item chart groups its item under its own sensor and under no other |
| Dashboard.GroupMembers | components/dashboard.tsx:109-112 | a group holds exactly the chart points of its sensor |
| Dashboard.SensorSetMembers | components/dashboard.tsx:109-111 | the grouped object has a key for exactly the sensors on the chart |
| Dashboard.GroupBySensor | components/dashboard.tsx:107-116 | the reduce yields, for each sensor on the chart, its points in chart order |
| Dashboard.GroupsPush | components/dashboard.tsx:108-113 | one step of the reduce appends the point to its own sensor's group, which starts empty |
| Dashboard.FirstSeen | components/dashboard.tsx:109-110 | the object's keys: each sensor on the chart exactly once, and nothing else |
| Dashboard.FirstPos | components/dashboard.tsx:109-110 | the position of a sensor's first item, which belongs to it, or the chart length when it has none |
| Dashboard.FirstPosIsFirst | components/dashboard.tsx:109-110 | no item before that position belongs to the sensor |
| Dashboard.FirstPosFound | components/dashboard.tsx:109-110 | a sensor has a first item exactly when it is on the chart |
| Dashboard.FirstSeenOrder | components/dashboard.tsx:107-116 | the keys come in strictly increasing order of their sensors' first item on the chart, the order in which the reduce creates them |
| Dashboard.GroupSizesSum | components/dashboard.tsx:107-116 | the group sizes add up to the chart length |
| Dashboard.Count | components/dashboard.tsx:152 | `filter(p).length` is at most the length, 0 iff no element satisfies p, the length iff all do |
| Dashboard.CountAppend | components/dashboard.tsx:152 | `filter(p).length` of a concatenation is the sum over its parts |
| Dashboard.DashboardCounts | components/dashboard.tsx:152-157 | each of the three counts adds up over the sensor list and counts one sensor as 1 exactly when it passes its test, so each is the number of sensors that pass |
| Dashboard.ActiveSensors | components/dashboard.tsx:152 | at most the number of sensors, and all of them exactly when every status is "active" |
| Dashboard.LowMoistureAlerts | components/dashboard.tsx:157 | no alerts iff every sensor shows 30 or more, where a missing reading shows 0 |
| Dashboard.OptimalCount | components/dashboard.tsx:426-429 | zero iff no sensor shows a moisture within 60..80, both ends included |
| Dashboard.ThresholdEdges | components/dashboard.tsx:426-429 | a sensor without a reading is low and not optimal; 60 and 80 are optimal |
| Dashboard.ViewAsWritten | components/dashboard.tsx:157 | as written, `latest_reading` is absent from the rows, so the latest moisture is always missing |
| Dashboard.ViewsAsWritten | components/dashboard.tsx:152-157 | the as-written view of every row |
| Dashboard.AsWrittenEverySensorIsLow | components/dashboard.tsx:157 | as written, every sensor is a low-moisture alert and none is optimal |
| Dashboard.View | components/dashboard.tsx:157 | the corrected view reads the row's latest_moisture |
| Dashboard.Views | components/dashboard.tsx:152-157 | the corrected view of every row |
| Dashboard.ViewFollowsLatestReading | components/dashboard.tsx:157 | corrected, on the row getAll returns, a sensor is an alert iff it has no reading or its latest moisture is below 30, and optimal iff that moisture is within 60..80; the latest moisture is that of a newest reading of the sensor |

## Left out

- Transport: the MQTT connection, the reconnect timer, keepalive, the
  random client id, and subscribe and publish acknowledgements belong to
  the MQTT library. Its events are the methods `OnConnect`, `OnError` and
  `OnOffline`.
- Logging: every console message.
- The readline prompt: the operator's answer is a parameter.
- `process.exit`.
- `JSON.parse`, `request.json()` and `JSON.stringify` are not modelled;
  their outcomes are parameters.
- Number formatting and date formatting are not modelled.
- SQLite type affinity: a value of the wrong type in a typed column is
  stored by SQLite, converted or as it is (a number in a TEXT column
  becomes text, a numeric string in a REAL column becomes a number, other
  text stays text). The model's rows are typed, so it does not store
  those values:
  - in `create` and the readings insert, a sensor id that is not a string
    or a moisture that is not a number is treated as a value that cannot
    be bound;
  - in `update`, such a value is the error `NotRepresented`.
  - better-sqlite3 spreads an array argument into separate bindings, so
    `{"location": ["Barn"]}` binds "Barn". The model treats every array
    or object value as one that cannot be bound (`Database.BindReal`,
    `SensorsRoute.SensorToCreate`, `MoistureDataRoute.ReadingToCreate`).
- Database.CheckUpdate: a key that is not a plain column name (one with
  spaces, quotes or SQL in it, which is pasted into the statement text) is
  treated as an unknown column; the statement SQLite would actually parse
  from it is not modelled. Case variants (`Location`) and the row id
  aliases are modelled.
- Database.ApplyUpdates: a number written to location, type or status, a
  string written to a calibration column, a sensor_id that is not a
  string, any write to created_at, and any write to the row id (`rowid`,
  `oid`, `_rowid_`) succeed in SQLite but are reported
  as `NotRepresented`, because the typed row cannot hold what SQLite
  stores.
- Database.Store.Update: for the same updates it reports `NotRepresented`
  and changes nothing, where SQLite changes the row and reports 1.
- Database.RowAsWritten: when several readings of a sensor share the
  latest second, SQLite takes the latest_* columns from any one of them;
  the model takes the last in table order.
- Database.Store.constructor: only a freshly created database file is
  modelled. Opening an existing file corresponds to calling the operations
  on any store that satisfies `Valid`. A file written with foreign keys
  off could hold readings of unknown sensors; such a file is not
  modelled.
- The rowid in the 201 body of `POST /api/sensors` is not modelled.
- Row order for `ORDER BY created_at` and `ORDER BY sensor_id`:
  - getAll's created_at order is modelled as table order reversed, so rows
    inserted in the same second are taken to keep insertion order.
  - The cleanup query's sensor_id order is modelled as table order. The
    order only changes the log and the order of the deletions, not their
    result.
- Ties under `ORDER BY timestamp DESC` (getBySensor, getRecent): SQLite
  leaves the order of equal timestamps unspecified. `Database.SortNewestFirst`
  keeps them in table order. Under `LIMIT 100` the tie order decides which
  readings of a sensor are returned, so the model fixes one of SQLite's
  possible answers.
- MoistureDataRoute.SortByTimestamp: the model is an insertion sort by
  adjacent swaps on a strictly later timestamp, so it keeps equal
  timestamps in their order, but its contract does not state that. The
  JavaScript engine's `sort` is stable too.
- `Strings.Trim` and `Strings.ToLower` handle ASCII only; Unicode white
  space and case mapping are not modelled.
- `getAllowedSensors`, `addAllowedSensor` and `removeAllowedSensor` are not
  part of this model.
  - The route calls them on the MQTT client, which does not define them.
  - The list is modelled as an abstract set, `AllowList`.
  - As shipped, GET and the POSTs with action "add" or "remove" would
    throw and answer 500. A POST with a falsy sensorId or action still
    answers 400 (app/api/allowed-sensors/route.ts:20-22), and so does one
    with any other action (:32-33).
  - `getMQTTClient()` (:24), which runs before the action is examined, is
    taken never to throw. That is why a POST with an unknown action
    answers 400 even when `fault` holds.
- `getByDateRange` is not part of this model.
  - `lib/database.ts` does not define it.
  - It is modelled as an abstract filter passed in as `inRange`.
  - As shipped, `moistureDataOperations.getByDateRange` is undefined, so
    calling it throws inside the handler's `try`, and every GET with
    truthy `from` and `to` answers 500. The model answers such requests
    as if the function were defined.
- `avgMoisture` (a float average with `Math.round`) is not modelled.
- The dashboard's rendering, polling and online/offline listeners are not
  modelled.
- Dashboard.FirstSeen: JavaScript lists integer-like property names (such
  as "42") first, in ascending numeric order, and the other names in
  creation order. The model states creation order (FirstSeenOrder) for all
  keys.
- Dashboard.GroupBySensor: a sensor id that names a property every object
  inherits (such as "constructor" or "toString") makes `acc[item.sensor]`
  truthy and not an array, so `push` throws. The model treats every id as
  a fresh key.
- Cleanup.Run: other writers are not modelled. The MQTT client may insert
  readings between the script's query and its transaction, for instance
  while it waits for the answer. Such readings of an unauthorized sensor
  are deleted too but are not in the announced total. The model assumes
  the tables do not change in between.
- Events after `end()`: the model does not stop them arriving.
- `MqttClient.Client.Publish` records the payload text for an object as
  given. The `JSON.stringify` text is computed outside the model.

## Findings

| source | as written | input that shows it | evidently intended | confidence | as-written member | corrected member |
|---|---|---|---|---|---|---|
| components/dashboard.tsx:157 | reads `s.latest_reading?.moisture_value`, but getAll returns `latest_moisture` and no `latest_reading` object | any sensor with a reading of 70: counted as a low-moisture alert and not as optimal | use the sensor's latest moisture | high, not executed | Dashboard.AsWrittenEverySensorIsLow | Dashboard.ViewFollowsLatestReading |
| lib/database.ts:62-70 | `COUNT(md2.id)` counts over a join that already repeats every reading at the latest second, so readings_count is multiplied by their number | two readings of one sensor in the same second: readings_count is 4 | the number of that sensor's readings | medium, not executed | Database.ReadingsCountAsWrittenOvercounts | Database.IntendedAllRows |
| components/dashboard.tsx:95-97 | the API returns readings oldest first, but the chart takes the first 100 and reverses them | 101 readings in the last 24 hours: the newest is missing, and time runs right to left | the latest 100 readings, oldest first | medium, not executed | Dashboard.ChartDropsNewest | Dashboard.IntendedChartInOrder |
