/**
 * The `categorias` record. The primary key lives outside the record, as
 * the key of the catalogue's map of categories, so each id names at most one
 * category; a new id is drawn by the caller (`uuid.uuid4`).
 */
module ModeloCategoria {

  /**
   * Declared width of the `nome` column (`String(128)`). Documentary only:
   * no route of the model checks a category name against it.
   */
  const TamanhoNome: nat := 128

  /** `nome` is a non-null string (`nullable=False`). */
  datatype Categoria = Categoria(nome: string)
}
