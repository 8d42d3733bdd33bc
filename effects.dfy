// What one BaseModel operation does to a mysqli connection, as a step
// on the connection's value: the statement it sends and, when MySQL
// accepts it, the change to the database and to the driver's counters.
// The domain models state their own effect as a run of these steps.
module Effects {
  import opened Wrappers
  import opened Php
  import opened Tables
  import opened Sql
  import opened Db
  import opened Models

  /** A statement that changes nothing: a SELECT, or an aggregate. */
  function Sent(st: ConnState, sql: string): ConnState
  {
    ConnState(st.sent + [sql], st.store, st.insertId, st.affectedRows)
  }

  /** create's INSERT of the stamped row; an accepted one stores it and sets the insert id. */
  function Created(st: ConnState, table: string, pk: string, d: Driver, row: Dict, accepted: bool): ConnState
  {
    ConnState(st.sent + [InsertSql(table, Columns(row), WrittenValues(d, row))],
              if accepted then Insert(st.store, table, pk, row) else st.store,
              if accepted then NextId(st.store, table) else st.insertId,
              st.affectedRows)
  }

  /** update's UPDATE of the touched row; an accepted one changes the selected row. */
  function Updated(st: ConnState, table: string, pk: string, d: Driver, id: Value, row: Dict, accepted: bool)
    : ConnState
  {
    ConnState(st.sent + [UpdateSql(table, pk, d, id, SetParts(d, row))],
              if accepted then UpdateRow(st.store, table, RowKey(id), row) else st.store,
              st.insertId, st.affectedRows)
  }

  /** delete's DELETE; an accepted one removes the selected row. */
  function Deleted(st: ConnState, table: string, pk: string, d: Driver, id: Value, accepted: bool): ConnState
  {
    ConnState(st.sent + [DeleteSql(table, pk, d, id)],
              if accepted then DeleteRow(st.store, table, RowKey(id)) else st.store,
              st.insertId, st.affectedRows)
  }

  /** find's answer: the row the id selects, or none when the query failed. */
  function FindAnswer(st: ConnState, table: string, id: Value, accepted: bool): Option<Dict>
  {
    if accepted then Found(st.store, table, id) else None
  }
}
