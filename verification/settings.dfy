/** The deployment settings that the prompt and the schema text mention. They are
    read from the environment at start-up and never change afterwards. */
module Settings {
  import opened Text

  /** GCP_PROJECT_ID, BIGQUERY_DATASET and BIGQUERY_TABLE. */
  datatype Config = Config(projectId: string, dataset: string, table: string)

  /** FULL_TABLE: the back-quoted `project.dataset.table` reference. */
  function FullTable(cfg: Config): (r: string)
    ensures |r| == |cfg.projectId| + |cfg.dataset| + |cfg.table| + 4
    ensures r[0] == '`' && r[|r| - 1] == '`'
    ensures OccursAt(r, cfg.projectId, 1) && r[1 + |cfg.projectId|] == '.'
    ensures OccursAt(r, cfg.dataset, 2 + |cfg.projectId|) && r[|r| - 2 - |cfg.table|] == '.'
    ensures OccursAt(r, cfg.table, |r| - 1 - |cfg.table|)
  {
    "`" + cfg.projectId + "." + cfg.dataset + "." + cfg.table + "`"
  }
}
